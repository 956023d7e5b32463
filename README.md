# EMG pointing and game tasks, modelled in Dafny

This project models the game logic of four small pygame tasks. Each is driven by
classes that an EMG gesture classifier sends over UDP as the text `"<class> <intensity>"`.

- **ISO Fitts test** (`Games/ISOFitts.py`). A ring of circles, one of them the goal. The cursor must
  dwell inside the goal for three seconds. The next goal follows an
  alternating-stride walk around the ring. The session ends after `num_trials` confirmations.
- **One-dimensional Fitts test** (`Games/OneDFitts.py`). A cursor moves left or right and must stay
  inside a randomly placed bar for the dwell time. The session ends after
  `num_targets` bars.
- **Snake** (`Games/snake.py`). Grid logic: a head that moves only inside the box, a body
  that follows it, growth by three segments when the head meets the target, a
  score, and a direction history bounded to 1000 entries.
- **EMG Hero** (`Games/emg_hero.py`). Notes fall down four lanes. A class presses the key of
  one lane. A note near the target line pays a one-time bonus (100 or 50) and then
  hold points (2 per frame while the total is below `max_hold_points`, so at most
  `max_hold_points + 1` in all). The combo and score
  update from those points.

Modules:

- `Common`: Option, Abs, Min/Max, truncation toward zero, and the product-sign lemmas
  `MulNonNeg`, `MulPos` and `SquareMonotone` that the real-number proofs use.
- `Wire`: the received datagram after UTF-8 decoding and `split(' ')`. Each piece is
  either a finite number `float()` accepts, read as an exact real, or a piece `float()`
  rejects. An undecodable payload and "nothing received" are explicit cases.
- One module per game: `IsoFitts`, `OneDFitts`, `Snake`, `EmgHero`.

The games change state in place, so each is a class whose methods
carry `modifies` clauses. Each method's `ensures` ties the new state to pure functions
(`WalkAfter`, `DwellStep`, `Follow`, `Grown`, `Pushed`, `CheckHitOutcome`, `Award`, …).
The properties of those functions are proved as lemmas: the walk's closed form and
period, the trial counter, no carry-over of the dwell timer after an exit, the
as-written and corrected circle layouts, the body shift and growth, the history
bound, the bonus paid at most once, the hold cap and a score that never decreases.

Inputs the source takes from its environment are parameters:

- the received datagram;
- the pygame events of a frame;
- `time.time()`/`perf_counter()`;
- the values drawn by `random`/`np.random`.

Behaviour of the code recorded by the model where it differs from a plain reading:

- The ISO goal walk alternates strides `N//2` and `N//2 + 1`. It repeats after **2N**
  advances, not N: for an even ring, goal `N/2` is visited after N advances (`WalkNotPeriodN`). For an odd ring only goals 0 and
  `N//2` are ever visited (`WalkOdd`). The code is followed.
- ISO `duration` is not reset when a goal is confirmed (lines 134-136). The next
  colliding tick re-confirms at once if the timer is None and the old duration is still
  at least 3. `DwellStep` keeps this. With three or more circles the new goal is
  another circle (`WalkAlwaysMoves`). A tick outside it then usually resets the timer
  first. It does not when the confirming frame's own move (line 75) carries the cursor
  onto the new goal: the next frame's collision test sees the moved cursor, and the
  intensity is unbounded. With the defaults, the payload "1 27.5" on the confirming tick
  moves the cursor 550 px left, from circle 0 (centre x 900) to circle 4 (centre x 350),
  and the next colliding tick confirms circle 4 at once. This needs an intensity above
  about 25. With
  two circles the goal stays on circle 1 for the second and third trial
  (`WalkRepeatsTwoCircles`), and the stale duration confirms that goal again on the next
  colliding tick.
- ISO `dwell_timer` and `duration` are first assigned on a tick outside the goal
  (lines 143-144). The cursor starts at the centre of the ring. The model initialises them
  to None and 0.0.
- OneDFitts tests `if self.enter_time:` by Python truthiness, so an entry time of
  exactly 0.0 never confirms. `OneDFitts.DwellStep` models this.
- pygame `Rect` stores integer coordinates, so assigning a float position truncates it toward
  zero (`AxisStep`).

## Model

| member | source | states |
|---|---|---|
| Wire.Field | Games/ISOFitts.py:111-112 | float(data.split(' ')[i]), or None where it raises IndexError or ValueError (definition) |
| Wire.LeadingClass | Games/OneDFitts.py:44-55 | The first piece as a class, or None when nothing arrived, the bytes are not UTF-8, the text is empty or the piece is not a number (definition) |
| Common.Trunc | Games/emg_hero.py:46 | int() of a float truncates toward zero: below the value for a positive one, above it for a negative one, and less than 1 away |
| IsoFitts.Advance | Games/ISOFitts.py:158-165 | The goal stays in `[0, N)`; the stride switches between `N//2` and `N//2 + 1` as circle_jump flips |
| IsoFitts.WalkAfter | Games/ISOFitts.py:153-165 | After k advances the goal is in range, circle_jump is `k % 2` and the stride matches it |
| IsoFitts.WalkPairs | Games/ISOFitts.py:153-165 | The closed form by induction over pairs of advances, with the product k(2(N//2)+1) given by name |
| IsoFitts.WalkClosedForm | Games/ISOFitts.py:153-165 | Closed form of the goal after 2k and 2k+1 advances: each pair adds `2(N//2)+1` mod N |
| IsoFitts.WalkEven | Games/ISOFitts.py:153-165 | For even N the goals are k and k + N/2 (mod N) alternately |
| IsoFitts.WalkOdd | Games/ISOFitts.py:153-165 | For odd N the goals alternate between 0 and N//2 only |
| IsoFitts.WalkPeriodPair | Games/ISOFitts.py:153-165 | Shifting a pair of advances by 2N leaves both goals unchanged |
| IsoFitts.WalkPeriod | Games/ISOFitts.py:153-165 | The whole walk state repeats after 2N advances |
| IsoFitts.WalkNotPeriodN | Games/ISOFitts.py:153-165 | For even N the goal after N advances is N/2, not 0 |
| IsoFitts.StartWalk | Games/ISOFitts.py:154-157 | The first call: goal 0, stride N//2, circle_jump 0 (definition; WalkAfter starts from it) |
| IsoFitts.WalkAlwaysMoves | Games/ISOFitts.py:158-165 | With three or more circles every advance changes the goal |
| IsoFitts.WalkRepeatsTwoCircles | Games/ISOFitts.py:158-165 | With two circles the goal is 1 after both the first and the second advance |
| IsoFitts.WalkEightCircles | Games/ISOFitts.py:153-165 | With 8 circles the goals are 0, 4, 1, 5, 2, 6, 3, 7, 4, 0 |
| IsoFitts.Confirm | Games/ISOFitts.py:137-140 | One confirmation: the trial counts up below max_trial - 1, otherwise done is set (definition; properties in TrialsAfterCount) |
| IsoFitts.TrialsAfter | Games/ISOFitts.py:137-140 | The counter after c confirmations from trial 0, not done (definition; properties in TrialsAfterCount) |
| IsoFitts.TrialsAfterCount | Games/ISOFitts.py:137-140 | After c confirmations done holds iff c >= max_trial, and trial is min(c, max_trial - 1) |
| IsoFitts.DwellStep | Games/ISOFitts.py:128-144 | Outside the goal the timer and duration reset; entry starts the timer without updating duration; a confirm clears the timer and needs duration >= dwell_time |
| IsoFitts.Confirms | Games/ISOFitts.py:128-136 | A run of colliding ticks confirms at some tick (definition; characterised by ConfirmsFromEntry and ConfirmsAfterExit) |
| IsoFitts.ConfirmsFromEntry | Games/ISOFitts.py:128-136 | With the timer running from t0, staying inside confirms iff some tick is at least dwell_time after t0 |
| IsoFitts.ConfirmsAfterExit | Games/ISOFitts.py:128-144 | After an exit, a stay confirms iff a tick after the entry tick is dwell_time later; the entry tick never confirms |
| IsoFitts.DwellReentryScenario | Games/ISOFitts.py:128-144 | Entering at 0.0, leaving at 2.9 and re-entering at 3.0 confirms at 6.0, not at 5.9 |
| IsoFitts.Collides | Games/ISOFitts.py:83 | The collision test without the square root (definition; CollidesIffDistance ties it to the source's test) |
| IsoFitts.CollidesIffDistance | Games/ISOFitts.py:81-83 | The squared test agrees with `sqrt(dx² + dy²) < circle.w/2 + cursor.w/2` |
| IsoFitts.CollidesDefaultSizes | Games/ISOFitts.py:81-83 | With an 80-wide circle and a 14-wide cursor the reach is 47 |
| IsoFitts.DecodeIso | Games/ISOFitts.py:107-124 | Crash iff the payload is undecodable or a non-empty text lacks a numeric class or intensity; the empty text does nothing; classes 1/2/4/3 steer -x/+x/-y/+y by VEL * intensity, others stop |
| IsoFitts.AxisStep | Games/ISOFitts.py:146-151 | A step is taken only when the new position stays strictly inside the margins; it is then truncated; an in-bounds cursor stays in bounds |
| IsoFitts.IsCircleCount | Games/ISOFitts.py:49-52 | The number of passes of the draw_circles loop: the least c with c * (360 // N) >= 360 (definition; properties in CircleCountIff and CircleCountSeven) |
| IsoFitts.CircleCountIff | Games/ISOFitts.py:46-52 | The draw_circles loop creates exactly N circles iff N divides 360 |
| IsoFitts.CircleCountSeven | Games/ISOFitts.py:46-52 | For N = 7 the loop creates 8 circles |
| IsoFitts.EvenAngleAgrees | Games/ISOFitts.py:46-52 | Evenly spaced angles lie in [0, 360) and equal the loop's angles whenever N divides 360 |
| IsoFitts.FittsLawTest.constructor | Games/ISOFitts.py:7-37 | The initial fields, the cursor centred at (w//2 - 7, h//2 - 7), and the first goal 0 with stride N//2 |
| IsoFitts.FittsLawTest.GetNewGoalCircle | Games/ISOFitts.py:153-165 | The first call starts the walk; later calls advance it by one step |
| IsoFitts.FittsLawTest.DrawCircles | Games/ISOFitts.py:46-52 | The first call creates the least c circles with c * (360 // N) >= 360, at angles k * (360 // N); later calls keep them |
| IsoFitts.FittsLawTest.DrawCirclesEvenly | Games/ISOFitts.py:46-52 | The corrected layout: exactly N circles at evenly spaced angles |
| IsoFitts.FittsLawTest.CheckCollisions | Games/ISOFitts.py:81-88 | Event_Flag holds iff the cursor touches the goal circle |
| IsoFitts.FittsLawTest.EvaluateDwell | Games/ISOFitts.py:127-144 | The timer follows DwellStep; a confirmation advances the walk once and counts one trial |
| IsoFitts.FittsLawTest.CheckEvents | Games/ISOFitts.py:90-144 | QUIT ends the session at once; otherwise the direction is reset and then decoded, a bad payload crashes, and the dwell is evaluated only for a non-empty payload |
| IsoFitts.FittsLawTest.InBounds | Games/ISOFitts.py:148-151 | The cursor lies within the margins move() keeps on both axes (definition; Move, UpdateGame and Run preserve it) |
| IsoFitts.FittsLawTest.Move | Games/ISOFitts.py:146-151 | Each axis steps on its own, by AxisStep; the cursor stays in bounds |
| IsoFitts.FittsLawTest.UpdateGame | Games/ISOFitts.py:72-79 | One frame: the layout is drawn once (corrected layout, see Left out); Event_Flag is the collision of the goal with the cursor before the move; a crash iff no QUIT and the payload fails to parse; the direction as decoded (kept on QUIT); the timer, walk and trial count as DwellStep says; the cursor moves by AxisStep unless crashed; invariants, at most one confirmation, bounds, and done iff QUIT or max_trial confirmations |
| IsoFitts.FittsLawTest.Run | Games/ISOFitts.py:167-181 | The loop stops only when done, on a crash, or when the input runs out; it never counts more than max_trial confirmations |
| OneDFitts.Nudge | Games/OneDFitts.py:44-55 | Class 1 moves the cursor +VEL and class 2 -VEL; every other read, including a failed one, moves nothing |
| OneDFitts.Clamp | Games/OneDFitts.py:58 | The cursor is kept in [0, width] and is unchanged when already inside |
| OneDFitts.ClampIdempotent | Games/OneDFitts.py:58 | Clamping twice is clamping once |
| OneDFitts.DwellStep | Games/OneDFitts.py:80-89 | Outside the target the entry time resets; entry records now; a confirm needs a truthy entry time and now - entry >= dwell_time |
| OneDFitts.Confirms | Games/OneDFitts.py:80-89 | A run of ticks inside the target confirms at some tick (definition; characterised by ConfirmsFromEntry and ConfirmsAfterExit) |
| OneDFitts.ConfirmsFromEntry | Games/OneDFitts.py:80-89 | From a non-zero entry time, staying inside confirms iff some tick is dwell_time after it |
| OneDFitts.ConfirmsAfterExit | Games/OneDFitts.py:80-89 | After an exit, a stay confirms iff a later tick is dwell_time after the entry tick |
| OneDFitts.Target.constructor | Games/OneDFitts.py:100-104 | A target with every field unset |
| OneDFitts.Target.InitializeRandom | Games/OneDFitts.py:106-112 | Width in [min, max] for a draw in [0, 1); x at least max_width (max_width + 10 when the draw falls short); the bar ends inside the screen when unclamped |
| OneDFitts.OneDFitts.IsCursorInTarget | Games/OneDFitts.py:25-26 | Strict containment on the x axis only |
| OneDFitts.OneDFitts.constructor | Games/OneDFitts.py:7-18 | Cursor at the screen centre, no target, no entry time |
| OneDFitts.OneDFitts.Placed | Games/OneDFitts.py:107-112 | The geometry initialize_random gives a target: its width, height 150, x clamped to max_width + 10 and the centred y (definition; guaranteed by GenerateTarget, EvaluateDwell and Tick) |
| OneDFitts.OneDFitts.GenerateTarget | Games/OneDFitts.py:20-23 | A fresh target replaces the old one, placed as initialize_random does (`Placed`: width, height 150, x clamped to max_width + 10, centred y) |
| OneDFitts.OneDFitts.StartGame | Games/OneDFitts.py:38-40 | The first target exists before the loop runs, placed as initialize_random does (`Placed`, so x >= max_width) |
| OneDFitts.OneDFitts.ReadInput | Games/OneDFitts.py:44-58 | The cursor moves by Nudge and is then clamped |
| OneDFitts.OneDFitts.EvaluateDwell | Games/OneDFitts.py:74-89 | The entry time follows DwellStep; a confirmation brings a fresh target with the full `Placed` geometry (so x >= max_width) and one target fewer; otherwise the target and count are kept |
| OneDFitts.OneDFitts.Tick | Games/OneDFitts.py:41-89 | One loop pass: clamped move, running cleared on QUIT or after the last target, dwell as DwellStep says, and on confirmation a fresh target with the full `Placed` geometry |
| Snake.Shift | Games/snake.py:104-113 | An unknown direction changes nothing; a known one changes exactly one coordinate (for a non-zero step) |
| Snake.Behind | Games/snake.py:133-141 | An unknown direction leaves the new segment on the tail |
| Snake.BehindInverse | Games/snake.py:104-113 | Stepping behind and then forward, or forward and then behind, returns to the start |
| Snake.BehindAdds | Games/snake.py:133-143 | Successive steps behind add up |
| Snake.Inside | Games/snake.py:116-117 | Strictly inside (0, 500) x (0, 500) (definition; used by MoveBlock and MovedKeeps) |
| Snake.MoveBlock | Games/snake.py:104-119 | The tentative move is committed on both axes iff strictly inside (0,500)x(0,500); otherwise and for an unknown direction nothing moves; inside stays inside; a committed move changes one coordinate by `movement` |
| Snake.Follow | Games/snake.py:90-102 | The length is kept; body[0] is the old head and body[i] the old body[i-1] |
| Snake.Tail | Games/snake.py:125-128 | The segment a new one is copied from: the last body segment, or the head when the body is empty (definition; used by Grown and GrownShape) |
| Snake.Grown | Games/snake.py:123-143 | The body after k rounds of the growth loop (definition; its shape is GrownShape) |
| Snake.GrownShape | Games/snake.py:121-143 | Growth adds k segments after the unchanged body; the j-th is j+1 steps behind the old tail (or head) |
| Snake.Pushed | Games/snake.py:22-24 | A deque(maxlen) append: the length is min(len + 1, maxlen); the result is a suffix of items + [x]; when full the oldest is evicted; x is last |
| Snake.PushedTimes | Games/snake.py:131 | k appends of the same direction to the history (definition; its shape is PushedTimesShape) |
| Snake.PushedTimesShape | Games/snake.py:131 | k appends keep the history within capacity and leave the entry last |
| Snake.EmgDirection | Games/snake.py:56-88 | 1→left, 2→right, 3→down, 4→up, both ways; every other class, payload or failed read gives none |
| Snake.Snap | Games/snake.py:40-44 | The target coordinate is a multiple of `movement`, at most the drawn value and less than `movement` below it |
| Snake.SnapUnit | Games/snake.py:16 | With movement 1 the drawn coordinate is kept |
| Snake.SquaresCollide | Games/snake.py:176-178 | colliderect of two 20 x 20 squares (definition; characterised by SquaresCollideIff) |
| Snake.SquaresCollideIff | Games/snake.py:176-178 | Two 20x20 rects overlap iff their corners are less than 20 apart on both axes |
| Snake.KeyDirection | Games/snake.py:28-33 | Exactly the four arrow keys map to a direction |
| Snake.Moved | Games/snake.py:90-102 | move_snake on the state value: MoveBlock for the head, Follow for the body (properties in MovedKeeps) |
| Snake.Turned | Games/snake.py:52-54 | A new direction is stored, appended to the history, then the snake moves (definition) |
| Snake.OnEvent | Games/snake.py:47-54 | QUIT clears running; a mapped KEYDOWN turns; other events change nothing (definition) |
| Snake.OnEvents | Games/snake.py:46-54 | The events of one frame applied in order (properties in OnEventsRunning) |
| Snake.OnEmg | Games/snake.py:56-88 | A class that EmgDirection maps turns the snake; anything else changes nothing (definition) |
| Snake.AutoMoved | Games/snake.py:172-173 | The auto-move happens iff the history is non-empty (definition) |
| Snake.Frame | Games/snake.py:160-181 | One loop pass: keys, EMG, auto-move, then the target check (properties in FrameScore) |
| Snake.Scored | Games/snake.py:176-181 | On overlap the score rises by 1 and the body by 3; otherwise nothing changes |
| Snake.MovedKeeps | Games/snake.py:90-119 | move_snake keeps the body length, history, score and target, and keeps an inside head inside |
| Snake.OnEventsRunning | Games/snake.py:46-54 | The game keeps running iff no QUIT event came; key events keep the score, target and body length, and the history within capacity |
| Snake.FrameScore | Games/snake.py:160-181 | In one frame the score rises by exactly 1, and the body by 3, iff the moved head meets the target; the history stays within 1000 entries |
| Snake.BoundedDeque.constructor | Games/snake.py:23-24 | An empty history with capacity 1000 |
| Snake.BoundedDeque.Append | Games/snake.py:22-24 | The items become Pushed(items, x, maxlen) and never exceed the capacity |
| Snake.SnakeGame.constructor | Games/snake.py:8-25 | Head (40,40), empty body, score 0, direction right, empty history, snapped target |
| Snake.SnakeGame.GenerateTarget | Games/snake.py:40-44 | The target is the snapped draw |
| Snake.SnakeGame.MoveSnake | Games/snake.py:90-102 | The head moves by MoveBlock and the body becomes Follow(old head, old body) |
| Snake.SnakeGame.GrowSnake | Games/snake.py:121-143 | The body becomes Grown(…, 3) and the direction is appended three times |
| Snake.SnakeGame.Turn | Games/snake.py:75-78 | The direction is set, appended to the history, then the snake moves |
| Snake.SnakeGame.HandleEvents | Games/snake.py:46-54 | The events are applied in order: QUIT clears running, and later events of the frame still apply; an arrow key turns and moves |
| Snake.SnakeGame.HandleEmg | Games/snake.py:56-88 | A mapped class turns and moves; otherwise nothing changes |
| Snake.SnakeGame.CheckTarget | Games/snake.py:175-181 | The state becomes Scored(state) |
| Snake.SnakeGame.Start | Games/snake.py:157-158 | The initial direction enters the history |
| Snake.SnakeGame.Step | Games/snake.py:160-181 | One frame: keyboard, EMG, auto-move if the history is non-empty, then the target check |
| EmgHero.HandleEmg | Games/emg_hero.py:7-18 | No read gives None; the empty text or class 0 gives -1; class k≠0 gives k-1; an undecodable or non-numeric payload raises |
| EmgHero.CheckHitOutcome | Games/emg_hero.py:54-78 | Points in {0,2,50,52,100,102}; another lane changes nothing; the bonus needs hit false and pays 100 within 30 or 50 within 60; hit is never cleared; hold +2 only while below the cap and 500 in [y-60-length, y]; collected stays within cap + 1 |
| EmgHero.NoteFrame | Games/emg_hero.py:161-169 | One frame of one note: fall by speed, then check_hit at target line 500 (definition; properties in BonusAtMostOnce and HoldCapped) |
| EmgHero.BonusAtMostOnce | Games/emg_hero.py:57-64 | Over any run of frames a note pays its initial-hit bonus at most once, and never after it has been hit |
| EmgHero.HoldCapped | Games/emg_hero.py:66-76 | Over any run, hold points never pass max_hold_points + 1 and hit is never cleared |
| EmgHero.Award | Games/emg_hero.py:169-174 | The combo rises by one iff points >= 50; a positive result adds at least its points; the score never decreases |
| EmgHero.AwardDoubles | Games/emg_hero.py:174 | From combo 5 on, points count at least double |
| EmgHero.EndOfFrame | Games/emg_hero.py:184-186 | The combo resets iff no hit happened this frame and a key is held; the score is kept |
| EmgHero.Apply | Games/emg_hero.py:162-174 | A dropped note breaks the combo unless it was hit; a checked note is awarded its points (definition; properties in ScoreNeverDecreases) |
| EmgHero.ScoreNeverDecreases | Games/emg_hero.py:160-174 | Over any run of drops and checks with non-negative points the score never decreases and the combo stays non-negative |
| EmgHero.Note.constructor | Games/emg_hero.py:34-46 | The kind must be a lane; x from the lane table; y 0; length 35 * 5 * draw; max_hold_points = int(length), between 0 and 174 for a draw in [0, 1) |
| EmgHero.Note.MoveNote | Games/emg_hero.py:48-52 | y grows by speed; -1 iff the new y > 1000, else 0 |
| EmgHero.Note.CheckHit | Games/emg_hero.py:54-78 | The points, hit and hold points are CheckHitOutcome's |
| EmgHero.HeroSession.constructor | Games/emg_hero.py:98-101 | No key, score 0, combo 0 |
| EmgHero.HeroSession.ReadInput | Games/emg_hero.py:147-150 | A crash iff handle_emg raises; a read key replaces key_pressed; the frame starts with no hit |
| EmgHero.HeroSession.ProcessNote | Games/emg_hero.py:160-174 | The note falls by speed; a note below the floor is dropped with its hit and hold points untouched, breaking the combo if never hit; otherwise the note becomes NoteFrame's and its check_hit points are awarded; the score never decreases |
| EmgHero.HeroSession.EndFrame | Games/emg_hero.py:184-186 | The combo follows EndOfFrame |

## Left out

- Sockets, rendering, fonts, colours and `clock.tick` are left out. A datagram, a frame's events, the clock readings and random draws enter as parameters; no I/O is modelled.
- Trigonometry of the ISO circle positions (Games/ISOFitts.py:51) is left out: a `place` function supplied by the caller turns an angle into a rect.
- The ISO keyboard adjustments (Games/ISOFitts.py:97-105) are not modelled. Usually line 107 overwrites them before use. On a frame where an arrow KEYDOWN comes before QUIT, though, check_events returns at line 95 before line 107, and move() at line 75 applies that ±VEL once more before the loop ends. The model keeps the old direction on a QUIT frame.
- The USEREVENT queue of ISO, read back through the loop variable `event` (Games/ISOFitts.py:84-87, 128), is not modelled: the collision result is passed directly as `eventFlag`.
- IsoFitts.DwellStep: `duration` is not rounded to two decimals (`round(…, 2)`, Games/ISOFitts.py:133). A stay that falls short of 3 s by less than 0.005 s confirms in the source but not in the model.
- IsoFitts.FittsLawTest.constructor: requires at least one circle. With zero circles the source raises ZeroDivisionError at the first draw (line 49). With a negative number `360 // N` is negative, the angle falls forever and the first draw never returns. Neither session is modelled.
- IsoFitts.FittsLawTest.UpdateGame: draws the corrected layout of `DrawCirclesEvenly`, not the loop of Games/ISOFitts.py:46-52 as written. When N does not divide 360 the two layouts place the goal circles at different angles (N = 7: 7 circles 360/7° apart against 8 circles 51° apart), so collisions can differ. When N divides 360 they are the same circles (`EvenAngleAgrees`), and this includes the default N = 8 used by GameViewer.py:70, where `FittsLawTest()` is built with its defaults.
- IsoFitts.FittsLawTest.DrawCircles: requires between 1 and 360 circles. Above 360 the angle increment is 0, and below 0 it is negative, so in both cases the source loops forever; with 0 it raises ZeroDivisionError.
- OneDFitts: the intensity field is never read by the source and is not modelled; neither is the formatted `time_left` text.
- OneDFitts.OneDFitts.Tick: one clock reading `now` serves the whole tick. The source reads `time.time()` twice, for the entry time at Games/OneDFitts.py:81 and for the elapsed time at line 86, so on the entry tick its elapsed time is a little above 0 where the model's is exactly 0.
- Floating point is read as exact real arithmetic throughout: `VEL * velocity` and the cursor sums of ISO, the cursor and target arithmetic of OneDFitts, `y_pos += speed` and the note length of EMG Hero, and `perf_counter()`/`time.time()` differences. Rounding of these values, and the literals "nan", "inf" and overflowing ones that `float()` accepts, are not modelled.
- Snake: the `print` of unexpected exceptions in `handle_emg` is not modelled; only its effect, that nothing changes, is.
- EmgHero: the spawn schedule `gen_time` and `speed` (Games/emg_hero.py:108-112, 161) are time-based floating-point formulas. New notes are built by `Note.constructor` from a drawn kind, and the speed is a parameter of `ProcessNote`.
- EmgHero: the loop over the `notes` list and its `notes.remove(n)` while iterating (Games/emg_hero.py:160-166) is not modelled. Removing skips the next note in that frame; the model covers one note's step (`ProcessNote`), not the list.
- EmgHero: the end of the test after TEST_TIME seconds and the QUIT event (Games/emg_hero.py:114-115, 140-142) are not modelled; they only clear `running`. The write-only `current_frame_keys` set (lines 145, 150) is not modelled either.
- The global `log` of emg_hero (Games/emg_hero.py:26-31, 191-194) is not modelled.
- PRNG seeding (`random.seed`, `np.random`) is not modelled; every draw is an input.

## Findings

| source | as written | input that shows it | evidently intended | confidence | as-written member | corrected member |
|---|---|---|---|---|---|---|
| Games/ISOFitts.py:46-52 | The angle advances by `360 // N` while below 360, creating ceil(360 / (360 // N)) circles | N = 7: the increment is 51, the angles are 0, 51, …, 357, and 8 circles are drawn; the eighth lies almost on circle 0 and can never be a goal | N circles evenly spaced around the ring | medium, not executed | IsoFitts.FittsLawTest.DrawCircles, IsoFitts.CircleCountSeven | IsoFitts.FittsLawTest.DrawCirclesEvenly, IsoFitts.EvenAngleAgrees |
