/** The snake game (Games/snake.py): a head on an integer grid steered by key
    presses or decoded classes, a body that follows it, a target that makes the
    snake grow and the score rise, and a bounded history of directions. */
module Snake {
  import opened Common
  import opened Wire

  const Width: int := 500
  const Height: int := 500
  /** Grid step of every move (self.movement). */
  const Movement: int := 1
  /** Capacity of the direction history (self.max_history). */
  const MaxHistory: nat := 1000
  /** Side of the head, body and target squares. */
  const Side: int := 20

  /** A block's top-left corner, the two-element list [x, y] of the source. */
  datatype Pos = Pos(x: int, y: int)

  /** The four directions the source knows; any other string moves nothing. */
  predicate IsDirection(dir: string)
  {
    dir == "left" || dir == "right" || dir == "up" || dir == "down"
  }

  /** Lines 105-113: the tentative position, d grid units towards dir. */
  function Shift(p: Pos, dir: string, d: int): (r: Pos)
    ensures !IsDirection(dir) ==> r == p
    ensures IsDirection(dir) ==> (r.x == p.x) != (r.y == p.y) || d == 0
  {
    if dir == "left" then Pos(p.x - d, p.y)
    else if dir == "right" then Pos(p.x + d, p.y)
    else if dir == "up" then Pos(p.x, p.y - d)
    else if dir == "down" then Pos(p.x, p.y + d)
    else p
  }

  /** Lines 134-141: d grid units opposite to dir. */
  function Behind(p: Pos, dir: string, d: int): (r: Pos)
    ensures !IsDirection(dir) ==> r == p
  {
    if dir == "left" then Pos(p.x + d, p.y)
    else if dir == "right" then Pos(p.x - d, p.y)
    else if dir == "up" then Pos(p.x, p.y + d)
    else if dir == "down" then Pos(p.x, p.y - d)
    else p
  }

  /** Stepping back and then forward returns to the start, in both orders. */
  lemma BehindInverse(p: Pos, dir: string, d: int)
    ensures Shift(Behind(p, dir, d), dir, d) == p
    ensures Behind(Shift(p, dir, d), dir, d) == p
  {
  }

  /** Two steps back add up. */
  lemma BehindAdds(p: Pos, dir: string, a: int, b: int)
    ensures Behind(Behind(p, dir, a), dir, b) == Behind(p, dir, a + b)
  {
  }

  /** Line 116-117: strictly inside (0, width) x (0, height). */
  predicate Inside(p: Pos)
  {
    0 < p.x < Width && 0 < p.y < Height
  }

  /** move(direction, block): the tentative position is committed on both axes
      only when it is strictly inside the screen. */
  function MoveBlock(dir: string, block: Pos): (r: Pos)
    ensures Inside(Shift(block, dir, Movement)) ==> r == Shift(block, dir, Movement)
    ensures !Inside(Shift(block, dir, Movement)) ==> r == block
    ensures !IsDirection(dir) ==> r == block
    ensures Inside(block) ==> Inside(r)
    ensures r != block ==>
              (r.x == block.x && (r.y - block.y == Movement || block.y - r.y == Movement)) ||
              (r.y == block.y && (r.x - block.x == Movement || block.x - r.x == Movement))
  {
    var t := Shift(block, dir, Movement);
    if Inside(t) then t else block
  }

  /** Lines 92-102: every segment takes the old place of the one ahead of it,
      the first one the old place of the head. */
  function Follow(head: Pos, body: seq<Pos>): (r: seq<Pos>)
    ensures |r| == |body|
    ensures |r| > 0 ==> r[0] == head
    ensures forall i :: 0 < i < |r| ==> r[i] == body[i - 1]
  {
    ([head] + body)[..|body|]
  }

  /** The segment the next new one is copied from: the tail, or the head. */
  function Tail(head: Pos, body: seq<Pos>): Pos
  {
    if |body| > 0 then body[|body| - 1] else head
  }

  /** The body after k rounds of the growth loop (lines 123-143). */
  function Grown(head: Pos, body: seq<Pos>, dir: string, k: nat): seq<Pos>
  {
    if k == 0 then body
    else
      var prev := Grown(head, body, dir, k - 1);
      prev + [Behind(Tail(head, prev), dir, Movement)]
  }

  /** Growth keeps the old body as a prefix, adds k segments, and puts the j-th
      new one (j + 1) steps behind the old tail, in a straight line. */
  lemma {:induction false} GrownShape(head: Pos, body: seq<Pos>, dir: string, k: nat)
    ensures |Grown(head, body, dir, k)| == |body| + k
    ensures Grown(head, body, dir, k)[..|body|] == body
    ensures forall j :: |body| <= j < |body| + k ==>
              Grown(head, body, dir, k)[j] == Behind(Tail(head, body), dir, (j - |body| + 1) * Movement)
  {
    if k > 0 {
      GrownShape(head, body, dir, k - 1);
      var prev := Grown(head, body, dir, k - 1);
      var g := Grown(head, body, dir, k);
      assert g == prev + [Behind(Tail(head, prev), dir, Movement)];
      assert g[..|body|] == prev[..|body|];
      if k - 1 > 0 {
        assert Tail(head, prev) == prev[|body| + k - 2];
        BehindAdds(Tail(head, body), dir, (k - 1) * Movement, Movement);
      } else {
        assert prev == body;
      }
      forall j | |body| <= j < |body| + k
        ensures g[j] == Behind(Tail(head, body), dir, (j - |body| + 1) * Movement)
      {
        if j < |body| + k - 1 {
          assert g[j] == prev[j];
        }
      }
    }
  }

  /** deque(maxlen).append(x): append, then evict from the left down to maxLen. */
  function Pushed<T>(items: seq<T>, x: T, maxLen: nat): (r: seq<T>)
    ensures |r| == Min(|items| + 1, maxLen)
    ensures r == (items + [x])[|items| + 1 - |r|..]
    ensures |items| < maxLen ==> r == items + [x]
    ensures |items| == maxLen > 0 ==> r == items[1..] + [x]
    ensures maxLen > 0 ==> r[|r| - 1] == x
  {
    var all := items + [x];
    if |all| <= maxLen then all else all[|all| - maxLen..]
  }

  /** k appends of the same entry. */
  function PushedTimes<T>(items: seq<T>, x: T, maxLen: nat, k: nat): seq<T>
  {
    if k == 0 then items else Pushed(PushedTimes(items, x, maxLen, k - 1), x, maxLen)
  }

  /** k appends never overflow the capacity and leave x last; below capacity,
      nothing is evicted. */
  lemma {:induction false} PushedTimesShape<T>(items: seq<T>, x: T, maxLen: nat, k: nat)
    requires |items| <= maxLen
    ensures |PushedTimes(items, x, maxLen, k)| == Min(|items| + k, maxLen)
    ensures maxLen > 0 && k > 0 ==> PushedTimes(items, x, maxLen, k)[|PushedTimes(items, x, maxLen, k)| - 1] == x
    ensures |items| + k <= maxLen ==> PushedTimes(items, x, maxLen, k)[..|items|] == items
  {
    if k > 0 {
      PushedTimesShape(items, x, maxLen, k - 1);
      var prev := PushedTimes(items, x, maxLen, k - 1);
      if |items| + k <= maxLen {
        assert PushedTimes(items, x, maxLen, k) == prev + [x];
        assert (prev + [x])[..|items|] == prev[..|items|];
      }
    }
  }

  /** Lines 61-78: classes 1..4 name left, right, down and up; anything else,
      a malformed payload or nothing received, names no direction. */
  function EmgDirection(received: Received): (r: Option<string>)
    ensures r == Some("left") <==> LeadingClass(received) == Some(1.0)
    ensures r == Some("right") <==> LeadingClass(received) == Some(2.0)
    ensures r == Some("down") <==> LeadingClass(received) == Some(3.0)
    ensures r == Some("up") <==> LeadingClass(received) == Some(4.0)
    ensures r.Some? ==> IsDirection(r.value)
    ensures r.None? <==> LeadingClass(received) !in {Some(1.0), Some(2.0), Some(3.0), Some(4.0)}
  {
    match LeadingClass(received)
    case None => None
    case Some(c) =>
      if c == 1.0 then Some("left")
      else if c == 2.0 then Some("right")
      else if c == 3.0 then Some("down")
      else if c == 4.0 then Some("up")
      else None
  }

  /** Lines 43-44: v - v % m, Python's remainder for a positive m. */
  function Snap(v: int, m: int): (r: int)
    requires m > 0
    ensures r == m * (v / m)
    ensures r <= v < r + m
  {
    assert v == m * (v / m) + v % m;
    v - v % m
  }

  /** With the game's unit step the drawn coordinate is kept as it is. */
  lemma SnapUnit(v: int)
    ensures Snap(v, Movement) == v
  {
  }

  /** pygame Rect.colliderect for two 20 x 20 squares at the given corners. */
  predicate SquaresCollide(a: Pos, b: Pos)
  {
    a.x < b.x + Side && b.x < a.x + Side && a.y < b.y + Side && b.y < a.y + Side
  }

  /** Two squares overlap iff their corners are less than a side apart on each axis. */
  lemma SquaresCollideIff(a: Pos, b: Pos)
    ensures SquaresCollide(a, b) <==>
            (if a.x >= b.x then a.x - b.x else b.x - a.x) < Side &&
            (if a.y >= b.y then a.y - b.y else b.y - a.y) < Side
  {
  }

  /** Keys of the keyboard path; the four arrows are mapped (lines 28-33). */
  datatype Key = ArrowLeft | ArrowRight | ArrowUp | ArrowDown | OtherKey
  /** One pygame event. */
  datatype Event = Quit | KeyDown(key: Key) | OtherEvent

  function KeyDirection(k: Key): (r: Option<string>)
    ensures r.Some? <==> !k.OtherKey?
    ensures r.Some? ==> IsDirection(r.value)
  {
    match k
    case ArrowLeft => Some("left")
    case ArrowRight => Some("right")
    case ArrowUp => Some("up")
    case ArrowDown => Some("down")
    case OtherKey => None
  }

  /** The game's whole state, as a value. */
  datatype State = State(head: Pos, body: seq<Pos>, target: Pos, direction: string,
                         history: seq<string>, score: int, running: bool)

  /** move_snake on the state. */
  function Moved(s: State): State
  {
    s.(head := MoveBlock(s.direction, s.head), body := Follow(s.head, s.body))
  }

  /** A new direction: remember it, then move (lines 52-54 and 76-78). */
  function Turned(s: State, dir: string): State
  {
    Moved(s.(direction := dir, history := Pushed(s.history, dir, MaxHistory)))
  }

  /** One event of handle_events. */
  function OnEvent(s: State, e: Event): State
  {
    match e
    case Quit => s.(running := false)
    case KeyDown(k) => if KeyDirection(k).Some? then Turned(s, KeyDirection(k).value) else s
    case OtherEvent => s
  }

  /** The events of one frame, in order. */
  function OnEvents(s: State, events: seq<Event>): State
  {
    if events == [] then s else OnEvent(OnEvents(s, events[..|events| - 1]), events[|events| - 1])
  }

  /** handle_emg on the state. */
  function OnEmg(s: State, received: Received): State
  {
    var d := EmgDirection(received);
    if d.Some? then Turned(s, d.value) else s
  }

  /** Lines 172-173: the auto-move. */
  function AutoMoved(s: State): State
  {
    if |s.history| > 0 then Moved(s) else s
  }

  /** Lines 176-181: on overlap, a new target, three more segments and a point. */
  function Scored(s: State, drawX: int, drawY: int): (r: State)
    ensures SquaresCollide(s.head, s.target) ==> r.score == s.score + 1 && |r.body| == |s.body| + 3
    ensures !SquaresCollide(s.head, s.target) ==> r == s
  {
    if SquaresCollide(s.head, s.target) then
      GrownShape(s.head, s.body, s.direction, 3);
      s.(target := Pos(Snap(drawX, Movement), Snap(drawY, Movement)),
         body := Grown(s.head, s.body, s.direction, 3),
         history := PushedTimes(s.history, s.direction, MaxHistory, 3),
         score := s.score + 1)
    else s
  }

  /** One pass of the `while self.running` loop, rendering left out. */
  function Frame(s: State, events: seq<Event>, received: Received, drawX: int, drawY: int): State
  {
    Scored(AutoMoved(OnEmg(OnEvents(s, events), received)), drawX, drawY)
  }

  /** A move keeps the body's length, the history and the score. */
  lemma MovedKeeps(s: State)
    ensures |Moved(s).body| == |s.body| && Moved(s).history == s.history
    ensures Moved(s).score == s.score && Moved(s).target == s.target
    ensures Inside(s.head) ==> Inside(Moved(s).head)
  {
  }

  /** The frame keeps running iff it was running and no Quit event came; the
      score and the body change only through Scored, and no event touches the score. */
  lemma {:induction false} OnEventsRunning(s: State, events: seq<Event>)
    ensures OnEvents(s, events).running <==> s.running && forall i :: 0 <= i < |events| ==> !events[i].Quit?
    ensures OnEvents(s, events).score == s.score && OnEvents(s, events).target == s.target
    ensures |OnEvents(s, events).body| == |s.body|
    ensures Inside(s.head) ==> Inside(OnEvents(s, events).head)
    ensures |s.history| <= MaxHistory ==> |OnEvents(s, events).history| <= MaxHistory
    decreases |events|
  {
    if events != [] {
      var init := events[..|events| - 1];
      OnEventsRunning(s, init);
      if forall i :: 0 <= i < |init| ==> !init[i].Quit? {
        assert forall i :: 0 <= i < |events| - 1 ==> events[i] == init[i];
      }
      if exists i :: 0 <= i < |init| && init[i].Quit? {
        var i :| 0 <= i < |init| && init[i].Quit?;
        assert events[i] == init[i];
      }
    }
  }

  /** Every frame keeps the history within capacity, and the score rises by one
      exactly when the moved head meets the target, and then the body gains three. */
  lemma FrameScore(s: State, events: seq<Event>, received: Received, drawX: int, drawY: int)
    requires |s.history| <= MaxHistory
    ensures var m := AutoMoved(OnEmg(OnEvents(s, events), received));
            var r := Frame(s, events, received, drawX, drawY);
            && (r.score == s.score + 1 <==> SquaresCollide(m.head, s.target))
            && (r.score == s.score <==> !SquaresCollide(m.head, s.target))
            && |r.body| == |s.body| + (if SquaresCollide(m.head, s.target) then 3 else 0)
            && |r.history| <= MaxHistory
  {
    OnEventsRunning(s, events);
    var m := AutoMoved(OnEmg(OnEvents(s, events), received));
    assert |m.history| <= MaxHistory;
    PushedTimesShape(m.history, m.direction, MaxHistory, 3);
  }

  /** A bounded history (collections.deque with maxlen). */
  class BoundedDeque<T> {
    var items: seq<T>
    const maxLen: nat

    constructor (maxLen: nat)
      ensures this.maxLen == maxLen && items == []
    {
      this.maxLen := maxLen;
      items := [];
    }

    method Append(x: T)
      modifies this`items
      ensures items == Pushed(old(items), x, maxLen)
      ensures |items| <= maxLen
    {
      var all := items + [x];
      if |all| > maxLen {
        all := all[|all| - maxLen..];
      }
      items := all;
    }
  }

  /** The game object (class SnakeGame). */
  class SnakeGame {
    var running: bool
    var score: int
    var head: Pos
    var body: seq<Pos>
    var target: Pos
    const history: BoundedDeque<string>
    var currentDirection: string

    function Snapshot(): State
      reads this, history
    {
      State(head, body, target, currentDirection, history.items, score, running)
    }

    ghost predicate Valid()
      reads this, history
    {
      history.maxLen == MaxHistory && |history.items| <= MaxHistory
    }

    /** __init__, with generate_target's two drawings passed in. */
    constructor (drawX: int, drawY: int)
      ensures Valid() && fresh(history)
      ensures Snapshot() == State(Pos(40, 40), [], Pos(Snap(drawX, Movement), Snap(drawY, Movement)),
                                  "right", [], 0, true)
    {
      running := true;
      score := 0;
      head := Pos(40, 40);
      body := [];
      target := Pos(Snap(drawX, Movement), Snap(drawY, Movement));
      history := new BoundedDeque(MaxHistory);
      currentDirection := "right";
    }

    /** generate_target, given randrange(20, width - 20) and randrange(20, height - 20). */
    method GenerateTarget(drawX: int, drawY: int)
      modifies this`target
      ensures target == Pos(Snap(drawX, Movement), Snap(drawY, Movement))
    {
      target := Pos(drawX - drawX % Movement, drawY - drawY % Movement);
    }

    /** move_snake: copy the old places, move the head, shift the body. */
    method MoveSnake()
      modifies this`head, this`body
      ensures head == MoveBlock(currentDirection, old(head))
      ensures body == Follow(old(head), old(body))
    {
      var oldPositions := [head];
      for i := 0 to |body|
        invariant oldPositions == [head] + body[..i]
      {
        oldPositions := oldPositions + [body[i]];
      }
      assert body[..|body|] == body;
      head := MoveBlock(currentDirection, head);
      ghost var before := body;
      for i := 0 to |body|
        invariant head == MoveBlock(currentDirection, old(head))
        invariant |body| == |before|
        invariant body[..i] == oldPositions[..i]
        invariant body[i..] == before[i..]
      {
        body := body[i := oldPositions[i]];
        assert body[..i + 1] == body[..i] + [body[i]];
        assert oldPositions[..i + 1] == oldPositions[..i] + [oldPositions[i]];
      }
      assert body == oldPositions[..|before|];
    }

    /** grow_snake: three rounds of copy the tail, remember the direction, step
        the copy back, append it. */
    method GrowSnake()
      requires Valid()
      modifies this`body, history
      ensures Valid()
      ensures body == Grown(head, old(body), currentDirection, 3)
      ensures history.items == PushedTimes(old(history.items), currentDirection, MaxHistory, 3)
    {
      for k := 0 to 3
        invariant Valid()
        invariant body == Grown(head, old(body), currentDirection, k)
        invariant history.items == PushedTimes(old(history.items), currentDirection, MaxHistory, k)
      {
        var newSegment := if |body| > 0 then body[|body| - 1] else head;
        history.Append(currentDirection);
        newSegment := Behind(newSegment, currentDirection, Movement);
        body := body + [newSegment];
      }
    }

    /** A recognised direction is taken, remembered, and moved in. */
    method Turn(dir: string)
      requires Valid()
      modifies this`currentDirection, this`head, this`body, history
      ensures Valid()
      ensures Snapshot() == Turned(old(Snapshot()), dir)
    {
      currentDirection := dir;
      history.Append(dir);
      MoveSnake();
    }

    /** handle_events, over the events the frame's queue held. */
    method HandleEvents(events: seq<Event>)
      requires Valid()
      modifies this`running, this`currentDirection, this`head, this`body, history
      ensures Valid()
      ensures Snapshot() == OnEvents(old(Snapshot()), events)
    {
      for i := 0 to |events|
        invariant Valid()
        invariant Snapshot() == OnEvents(old(Snapshot()), events[..i])
      {
        assert events[..i + 1][..i] == events[..i];
        match events[i]
        case Quit =>
          running := false;
        case KeyDown(k) =>
          var d := KeyDirection(k);
          if d.Some? {
            Turn(d.value);
          }
        case OtherEvent =>
      }
      assert events[..|events|] == events;
    }

    /** handle_emg, with the non-blocking read's outcome passed in. */
    method HandleEmg(received: Received)
      requires Valid()
      modifies this`currentDirection, this`head, this`body, history
      ensures Valid()
      ensures Snapshot() == OnEmg(old(Snapshot()), received)
    {
      var newDirection := EmgDirection(received);
      if newDirection.Some? {
        Turn(newDirection.value);
      }
    }

    /** Lines 176-181. */
    method CheckTarget(drawX: int, drawY: int)
      requires Valid()
      modifies this`target, this`body, this`score, history
      ensures Valid()
      ensures Snapshot() == Scored(old(Snapshot()), drawX, drawY)
    {
      if SquaresCollide(head, target) {
        GenerateTarget(drawX, drawY);
        GrowSnake();
        score := score + 1;
      }
    }

    /** Line 158: the first direction enters the history before the loop. */
    method Start()
      requires Valid()
      modifies history
      ensures Valid()
      ensures history.items == Pushed(old(history.items), currentDirection, MaxHistory)
    {
      history.Append(currentDirection);
    }

    /** One pass of the main loop: keyboard, EMG, auto-move, target. */
    method Step(events: seq<Event>, received: Received, drawX: int, drawY: int)
      requires Valid()
      modifies this, history
      ensures Valid()
      ensures Snapshot() == Frame(old(Snapshot()), events, received, drawX, drawY)
    {
      HandleEvents(events);
      HandleEmg(received);
      if |history.items| > 0 {
        MoveSnake();
      }
      CheckTarget(drawX, drawY);
    }
  }
}
