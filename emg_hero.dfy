/** The rhythm game (Games/emg_hero.py): notes fall down four lanes, a decoded
    class presses the key of one lane, and hitting a note near the target line
    scores a bonus once and hold points while the key stays on it. */
module EmgHero {
  import opened Common
  import opened Wire

  /** The outcome of handle_emg: nothing read, a key (-1 for none, class - 1
      otherwise), or an exception that ends the game (UnicodeDecodeError on
      undecodable bytes, ValueError on a first piece that is not a number). */
  datatype KeyRead = NoRead | Key(value: real) | Crash

  /** handle_emg; the receive itself is the only call guarded by try. */
  function HandleEmg(received: Received): (r: KeyRead)
    ensures r.NoRead? <==> received.Nothing?
    ensures r.Crash? <==> received == Got(Undecodable) ||
                          (received.Got? && received.datagram.Text? && received.datagram.tokens != [] &&
                           Field(received.datagram.tokens, 0).None?)
    ensures r == Key(-1.0) <==> received == Got(Text([])) || LeadingClass(received) == Some(0.0)
    ensures r.Key? && r.value != -1.0 <==> exists c :: LeadingClass(received) == Some(c) && c != 0.0
    ensures r.Key? && r.value != -1.0 ==> LeadingClass(received) == Some(r.value + 1.0)
  {
    match received
    case Nothing => NoRead
    case Got(Undecodable) => Crash
    case Got(Text(tokens)) =>
      if tokens == [] then Key(-1.0)
      else
        match Field(tokens, 0)
        case None => Crash
        case Some(c) => if c != 0.0 then Key(c - 1.0) else Key(-1.0)
  }

  /** Line 37: the x position of each lane. */
  const Lanes: seq<int> := [75, 200, 325, 450]
  /** The default target_y of check_hit and the y of the target circles. */
  const TargetY: real := 500.0
  /** Line 50: below this y a note has left the screen. */
  const FloorY: real := 1000.0

  /** The part of a note check_hit reads and writes, as a value. */
  datatype NoteData = NoteData(kind: int, yPos: real, length: real, hit: bool,
                               collected: int, maxHold: int)

  /** What one check_hit call returns and leaves behind. */
  datatype HitResult = HitResult(points: int, hit: bool, collected: int)

  /** check_hit(key_pressed, target_y) on a note. */
  function CheckHitOutcome(n: NoteData, key: real, targetY: real): (r: HitResult)
    ensures r.points in {0, 2, 50, 52, 100, 102}
    ensures n.kind as real != key ==> r == HitResult(0, n.hit, n.collected)
    ensures n.hit ==> r.hit
    ensures r.hit <==> n.hit || (n.kind as real == key && Abs(n.yPos - targetY) <= 60.0)
    ensures r.points >= 50 <==> !n.hit && n.kind as real == key && Abs(n.yPos - targetY) <= 60.0
    ensures r.points >= 100 <==> !n.hit && n.kind as real == key && Abs(n.yPos - targetY) <= 30.0
    ensures r.collected == n.collected + 2 <==> r.points % 50 == 2
    ensures r.collected != n.collected ==> r.collected == n.collected + 2
    ensures r.collected == n.collected + 2 <==>
              r.hit && n.kind as real == key && n.collected < n.maxHold &&
              n.yPos - 60.0 - n.length <= targetY <= n.yPos
    ensures n.collected <= n.maxHold + 1 ==> r.collected <= n.maxHold + 1
    ensures n.collected <= Max(n.maxHold + 1, 0) ==> r.collected <= Max(n.maxHold + 1, 0)
  {
    var pressed := n.kind as real == key;
    var distance := Abs(n.yPos - targetY);
    var first :=
      if !n.hit && pressed && distance <= 30.0 then HitResult(100, true, n.collected)
      else if !n.hit && pressed && distance <= 60.0 then HitResult(50, true, n.collected)
      else HitResult(0, n.hit, n.collected);
    if first.hit && pressed && n.yPos - 60.0 - n.length <= targetY <= n.yPos && n.collected < n.maxHold
    then HitResult(first.points + 2, true, n.collected + 2)
    else first
  }

  /** One frame of one note: move_note(speed), then check_hit(key) at the target line. */
  function NoteFrame(n: NoteData, speed: real, key: real): (NoteData, int)
  {
    var moved := n.(yPos := n.yPos + speed);
    var r := CheckHitOutcome(moved, key, TargetY);
    (moved.(hit := r.hit, collected := r.collected), r.points)
  }

  /** The note after a run of frames, each (speed, key pressed). */
  function Replayed(n: NoteData, frames: seq<(real, real)>): NoteData
    decreases |frames|
  {
    if frames == [] then n else Replayed(NoteFrame(n, frames[0].0, frames[0].1).0, frames[1..])
  }

  /** How many frames of the run paid an initial-hit bonus. */
  function BonusesPaid(n: NoteData, frames: seq<(real, real)>): nat
    decreases |frames|
  {
    if frames == [] then 0
    else
      var step := NoteFrame(n, frames[0].0, frames[0].1);
      (if step.1 >= 50 then 1 else 0) + BonusesPaid(step.0, frames[1..])
  }

  /** The bonus is paid at most once per note, and never once it has been hit. */
  lemma {:induction false} BonusAtMostOnce(n: NoteData, frames: seq<(real, real)>)
    ensures BonusesPaid(n, frames) <= (if n.hit then 0 else 1)
    decreases |frames|
  {
    if frames != [] {
      var step := NoteFrame(n, frames[0].0, frames[0].1);
      BonusAtMostOnce(step.0, frames[1..]);
    }
  }

  /** Over any run, hit is never cleared, the kind, length and cap never change,
      and the hold points never pass max_hold_points + 1. */
  lemma {:induction false} HoldCapped(n: NoteData, frames: seq<(real, real)>)
    requires n.collected <= n.maxHold + 1
    ensures Replayed(n, frames).collected <= n.maxHold + 1
    ensures n.hit ==> Replayed(n, frames).hit
    ensures Replayed(n, frames).collected >= n.collected
    ensures Replayed(n, frames).kind == n.kind && Replayed(n, frames).length == n.length
    ensures Replayed(n, frames).maxHold == n.maxHold
    decreases |frames|
  {
    if frames != [] {
      HoldCapped(NoteFrame(n, frames[0].0, frames[0].1).0, frames[1..]);
    }
  }

  /** The running score and combo of start_game. */
  datatype Tally = Tally(score: int, combo: int)

  /** Lines 170-174: a positive result scores, times one more than combo // 5;
      only an initial hit (50 or more) raises the combo first. */
  function Award(t: Tally, points: int): (r: Tally)
    ensures points <= 0 ==> r == t
    ensures points > 0 ==> (r.combo == t.combo + 1 <==> points >= 50)
    ensures points > 0 ==> (r.combo == t.combo <==> points < 50)
    ensures t.combo >= 0 && points > 0 ==> r.score >= t.score + points
    ensures t.combo >= 0 ==> r.combo >= 0 && r.score >= t.score
  {
    if points > 0 then
      var combo := if points >= 50 then t.combo + 1 else t.combo;
      Tally(t.score + points * (combo / 5 + 1), combo)
    else t
  }

  /** From combo 5 on, each point counts at least twice. */
  lemma AwardDoubles(t: Tally, points: int)
    requires t.combo >= 5 && points > 0
    ensures Award(t, points).score >= t.score + 2 * points
  {
    var c := Award(t, points).combo;
    assert c / 5 >= 1;
    assert points * (c / 5 + 1) >= points * 2;
  }

  /** One note's effect on the tally within a frame. */
  datatype NoteStep = Dropped(wasHit: bool) | Checked(points: int)

  /** Lines 162-174: a note leaving the screen breaks the combo if it was never hit. */
  function Apply(t: Tally, s: NoteStep): Tally
  {
    match s
    case Dropped(wasHit) => if wasHit then t else t.(combo := 0)
    case Checked(points) => Award(t, points)
  }

  /** The steps of a run, in order. */
  function ApplyAll(t: Tally, steps: seq<NoteStep>): Tally
    decreases |steps|
  {
    if steps == [] then t else ApplyAll(Apply(t, steps[0]), steps[1..])
  }

  /** Lines 184-186: a frame with the key down and no hit breaks the combo. */
  function EndOfFrame(t: Tally, hitThisFrame: bool, key: real): (r: Tally)
    ensures r.score == t.score
    ensures r.combo == 0 <==> t.combo == 0 || (!hitThisFrame && key != -1.0)
  {
    if !hitThisFrame && key != -1.0 then t.(combo := 0) else t
  }

  /** The score never decreases over any run of note steps whose results are
      check_hit values, and the combo stays non-negative. */
  lemma {:induction false} ScoreNeverDecreases(t: Tally, steps: seq<NoteStep>)
    requires t.combo >= 0
    requires forall i :: 0 <= i < |steps| && steps[i].Checked? ==> steps[i].points >= 0
    ensures ApplyAll(t, steps).score >= t.score
    ensures ApplyAll(t, steps).combo >= 0
    decreases |steps|
  {
    if steps != [] {
      assert forall i :: 0 <= i < |steps[1..]| && steps[1..][i].Checked? ==> steps[1..][i].points >= 0 by {
        forall i | 0 <= i < |steps[1..]| && steps[1..][i].Checked?
          ensures steps[1..][i].points >= 0
        {
          assert steps[1..][i] == steps[i + 1];
        }
      }
      ScoreNeverDecreases(Apply(t, steps[0]), steps[1..]);
    }
  }

  /** A falling note (class Note); `type` is a Python built-in name, so it is kind here. */
  class Note {
    const kind: int
    const xPos: int
    var yPos: real
    const length: real
    var hit: bool
    var holdPointsCollected: int
    const maxHoldPoints: int

    function Data(): NoteData
      reads this
    {
      NoteData(kind, yPos, length, hit, holdPointsCollected, maxHoldPoints)
    }

    ghost predicate Valid()
      reads this
    {
      0 <= kind < 4 && 0 <= holdPointsCollected <= Max(maxHoldPoints + 1, 0)
    }

    /** Note(type), with np.random.random() passed in as lengthDraw; the source
        asserts that the kind names one of the four lanes. */
    constructor (kind: int, lengthDraw: real)
      requires 0 <= kind < 4
      ensures Valid()
      ensures this.kind == kind && xPos == Lanes[kind] && yPos == 0.0
      ensures length == 35.0 * (5.0 * lengthDraw) && maxHoldPoints == Trunc(length)
      ensures !hit && holdPointsCollected == 0
      ensures 0.0 <= lengthDraw < 1.0 ==> 0 <= maxHoldPoints <= 174
    {
      this.kind := kind;
      xPos := Lanes[kind];
      yPos := 0.0;
      length := 35.0 * (5.0 * lengthDraw);
      hit := false;
      holdPointsCollected := 0;
      maxHoldPoints := Trunc(35.0 * (5.0 * lengthDraw));
      new;
      if 0.0 <= lengthDraw < 1.0 {
        assert length < 175.0;
      }
    }

    /** move_note(speed): -1 once the note is below the floor, 0 otherwise. */
    method MoveNote(speed: real) returns (r: int)
      modifies this`yPos
      ensures yPos == old(yPos) + speed
      ensures r == -1 <==> yPos > FloorY
      ensures r == 0 <==> yPos <= FloorY
    {
      yPos := yPos + speed;
      if yPos > FloorY {
        return -1;
      }
      return 0;
    }

    /** check_hit(key_pressed, target_y). */
    method CheckHit(keyPressed: real, targetY: real) returns (points: int)
      requires Valid()
      modifies this`hit, this`holdPointsCollected
      ensures Valid()
      ensures var r := CheckHitOutcome(old(Data()), keyPressed, targetY);
              points == r.points && hit == r.hit && holdPointsCollected == r.collected
    {
      points := 0;
      if !hit && kind as real == keyPressed {
        var distance := Abs(yPos - targetY);
        if distance <= 30.0 {
          hit := true;
          points := points + 100;
        } else if distance <= 60.0 {
          hit := true;
          points := points + 50;
        }
      }
      if hit && kind as real == keyPressed {
        var noteTop := yPos - 60.0 - length;
        var noteBottom := yPos;
        if targetY >= noteTop && targetY <= noteBottom {
          if holdPointsCollected < maxHoldPoints {
            var holdPoints := 2;
            holdPointsCollected := holdPointsCollected + holdPoints;
            points := points + holdPoints;
          }
        }
      }
    }
  }

  /** The state start_game keeps across frames. */
  class HeroSession {
    var score: int
    var combo: int
    var keyPressed: real
    var hitThisFrame: bool

    function Current(): Tally
      reads this
    {
      Tally(score, combo)
    }

    ghost predicate Valid()
      reads this
    {
      combo >= 0
    }

    constructor ()
      ensures Valid() && score == 0 && combo == 0 && keyPressed == -1.0 && !hitThisFrame
    {
      score, combo, keyPressed, hitThisFrame := 0, 0, -1.0, false;
    }

    /** Lines 147-150 and 159: take a new key, then start the frame with no hit. */
    method ReadInput(received: Received) returns (crashed: bool)
      modifies this`keyPressed, this`hitThisFrame
      ensures crashed <==> HandleEmg(received).Crash?
      ensures !crashed ==> !hitThisFrame
      ensures !crashed ==> keyPressed == (if HandleEmg(received).Key? then HandleEmg(received).value
                                          else old(keyPressed))
      ensures crashed ==> keyPressed == old(keyPressed) && hitThisFrame == old(hitThisFrame)
    {
      var val := HandleEmg(received);
      if val.Crash? {
        return true;
      }
      if val.Key? && val.value != keyPressed {
        keyPressed := val.value;
      }
      hitThisFrame := false;
      return false;
    }

    /** Lines 161-174 for one note: move it, drop it below the floor, otherwise
        score what check_hit returns. */
    method ProcessNote(n: Note, speed: real) returns (removed: bool)
      requires Valid() && n.Valid()
      modifies this`score, this`combo, this`hitThisFrame, n
      ensures Valid() && n.Valid()
      ensures n.yPos == old(n.yPos) + speed
      ensures removed <==> old(n.yPos) + speed > FloorY
      ensures removed ==> Current() == Apply(old(Current()), Dropped(old(n.hit)))
      ensures removed ==> hitThisFrame == old(hitThisFrame)
      ensures removed ==> n.hit == old(n.hit) && n.holdPointsCollected == old(n.holdPointsCollected)
      ensures !removed ==>
                var f := NoteFrame(old(n.Data()), speed, keyPressed);
                n.Data() == f.0 && Current() == Apply(old(Current()), Checked(f.1))
      ensures !removed ==>
                var r := CheckHitOutcome(old(n.Data()).(yPos := old(n.yPos) + speed), keyPressed, TargetY);
                && Current() == Apply(old(Current()), Checked(r.points))
                && n.hit == r.hit && n.holdPointsCollected == r.collected
                && hitThisFrame == (old(hitThisFrame) || r.points > 0)
      ensures score >= old(score)
    {
      var moved := n.MoveNote(speed);
      if moved == -1 {
        if !n.hit {
          combo := 0;
        }
        return true;
      }
      var points := n.CheckHit(keyPressed, TargetY);
      if points > 0 {
        hitThisFrame := true;
        if points >= 50 {
          combo := combo + 1;
        }
        score := score + points * (combo / 5 + 1);
      }
      return false;
    }

    /** Lines 184-186. */
    method EndFrame()
      modifies this`combo
      ensures Current() == EndOfFrame(old(Current()), hitThisFrame, keyPressed)
    {
      if !hitThisFrame && keyPressed != -1.0 {
        combo := 0;
      }
    }
  }
}
