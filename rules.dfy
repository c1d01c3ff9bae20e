/**
 The game session of src/main.js as values: the `state` and `player`
 records, the carrot and obstacle lists, the held keys and the cursor into
 the stream of random draws, gathered in one `World`. Each function below is
 what one of the source's functions or handlers does to that world; the
 `Game` class runs the same steps in place and is proved equal to them.
 */
module Rules {
  import opened Geometry
  import opened Spawn

  datatype Option<T> = None | Some(value: T)
  {
    function GetOr(default: T): T
    {
      match this
      case Some(v) => v
      case None => default
    }
  }

  datatype Direction = Left | Right

  /** The changing part of the `player` record; its size, gravity and thrust never change. */
  datatype Player = Player(x: real, y: real, velocityX: real, velocityY: real, direction: Direction)

  /** The `state` record. */
  datatype State = State(
    splashScreen: bool,
    started: bool,
    gameOver: bool,
    exploding: bool,
    explosionFrame: nat,
    score: int,
    highScore: int)

  const ShipSize: real := 30.0
  const Gravity: real := 0.15
  const Thrust: real := -0.5
  /** Horizontal acceleration per tick while a steering key is held. */
  const Steering: real := 0.3
  /** Both velocity components are multiplied by this after the position moves. */
  const Friction: real := 0.98
  const CarrotReward: int := 100
  const StartCarrots: nat := 5
  const StartObstacles: nat := 3

  /** Where the ship starts and restarts: centred horizontally, facing right, at rest. */
  const StartPlayer: Player := Player(FieldWidth / 2.0 - 15.0, FieldHeight / 2.0, 0.0, 0.0, Right)

  function PlayerBox(s: Player): Box
  {
    Box(s.x, s.y, ShipSize, ShipSize)
  }

  /** The larger of two scores (`Geometry.Max` is its counterpart on coordinates). */
  function Larger(a: int, b: int): int { if a < b then b else a }

  /** The keys that steer: `keys['ArrowLeft'] || keys['a']` and so on. */
  predicate LeftHeld(keys: set<string>) { "ArrowLeft" in keys || "a" in keys }
  predicate RightHeld(keys: set<string>) { "ArrowRight" in keys || "d" in keys }
  predicate ThrustHeld(keys: set<string>) { "ArrowUp" in keys || "w" in keys || " " in keys }

  /** The key-driven part of a tick: left, then right, then thrust. */
  function Steer(s: Player, keys: set<string>): Player
  {
    var afterLeft := if LeftHeld(keys) then s.(velocityX := s.velocityX - Steering, direction := Left) else s;
    var afterRight :=
      if RightHeld(keys) then afterLeft.(velocityX := afterLeft.velocityX + Steering, direction := Right)
      else afterLeft;
    if ThrustHeld(keys) then afterRight.(velocityY := afterRight.velocityY + Thrust) else afterRight
  }

  /** Key accelerations, then gravity, then the position moves by the velocity, then friction. */
  function Move(s: Player, keys: set<string>): Player
  {
    var steered := Steer(s, keys);
    var vy := steered.velocityY + Gravity;
    steered.(x := steered.x + steered.velocityX, y := steered.y + vy,
             velocityX := steered.velocityX * Friction, velocityY := vy * Friction)
  }

  /** The lethal-wall test: touching an edge counts. */
  predicate AtWall(s: Player)
  {
    s.x <= 0.0 || s.x + ShipSize >= FieldWidth || s.y <= 0.0 || s.y + ShipSize >= FieldHeight
  }

  /** The box lies strictly inside the field, touching no edge. */
  predicate StrictlyInside(b: Box)
  {
    0.0 < b.x && b.x + b.width < FieldWidth && 0.0 < b.y && b.y + b.height < FieldHeight
  }

  /** Some obstacle at index `from` or later overlaps the player's box. */
  predicate HitsObstacle(player: Box, os: seq<Box>, from: int)
  {
    exists k :: from <= k < |os| && 0 <= k && Overlaps(player, os[k])
  }

  /** What a pass of the carrot loop leaves: the list, how many were collected, the draw cursor. */
  datatype Harvest = Harvest(carrots: seq<Box>, collected: nat, draws: nat)

  /** `cs` with slot `i` removed and a fresh carrot pushed: `splice(i, 1)` then `spawnCarrot()`. */
  function Replace(cs: seq<Box>, i: nat, spawned: Box): seq<Box>
    requires i < |cs|
  {
    cs[..i] + cs[i + 1..] + [spawned]
  }

  /**
   The carrot loop from index `i` on. `forEach` visits the indices below the
   length `n` the list had when the loop began, reading whatever sits in each
   slot at the time; a collected carrot is spliced out, so its neighbour moves
   into the visited slot and is skipped, while the replacement is pushed at
   the end.
   */
  function Collect(player: Box, cs: seq<Box>, n: nat, i: nat, random: nat -> Draw, d: nat): (h: Harvest)
    requires i <= n
    decreases n - i
    ensures |h.carrots| == |cs|
    ensures h.draws == d + 2 * h.collected
    ensures h.collected <= n - i
  {
    if i == n then Harvest(cs, 0, d)
    else if i < |cs| && Overlaps(player, cs[i]) then
      var rest := Collect(player, Replace(cs, i, NextCarrot(random, d)), n, i + 1, random, d + 2);
      Harvest(rest.carrots, rest.collected + 1, rest.draws)
    else
      Collect(player, cs, n, i + 1, random, d)
  }

  /**
   The whole session: the `state` and `player` records, the two lists, the
   held keys, and the three services the page uses: local storage (the value
   under 'rse:highScore'), the timer queue (how many `gameOver` calls
   `setTimeout` still has to make) and `Math.random` (how many values it has
   handed out).
   */
  datatype World = World(
    state: State,
    player: Player,
    carrots: seq<Box>,
    obstacles: seq<Box>,
    keys: set<string>,
    persistedHigh: Option<int>,
    pendingGameOver: nat,
    draws: nat)

  /** The wall or obstacle hit: sets the latch and schedules `gameOver`, unless the latch is already set. */
  function Explode(w: World): World
  {
    if w.state.exploding then w
    else w.(state := w.state.(exploding := true, explosionFrame := 0), pendingGameOver := w.pendingGameOver + 1)
  }

  /** The obstacle loop from index `j` on: every overlapping obstacle triggers the latch. */
  function CheckObstacles(w: World, j: nat): World
    requires j <= |w.obstacles|
    decreases |w.obstacles| - j
  {
    if j == |w.obstacles| then w
    else
      var next := if Overlaps(PlayerBox(w.player), w.obstacles[j]) then Explode(w) else w;
      CheckObstacles(next, j + 1)
  }

  /** The movement part of `update`. */
  function Moved(w: World): World
  {
    w.(player := Move(w.player, w.keys))
  }

  /** The lethal-wall check of `update`. */
  function HitWall(w: World): World
  {
    if AtWall(w.player) then Explode(w) else w
  }

  /** The carrot loop of `update`, run over the whole list: 100 points per collected carrot. */
  function Harvested(w: World, random: nat -> Draw): World
  {
    var h := Collect(PlayerBox(w.player), w.carrots, |w.carrots|, 0, random, w.draws);
    w.(carrots := h.carrots, draws := h.draws,
       state := w.state.(score := w.state.score + CarrotReward * h.collected))
  }

  /** One call of `update`: nothing on the splash screen or after game over, else the four stages in order. */
  function Tick(w: World, random: nat -> Draw): World
  {
    if w.state.splashScreen || w.state.gameOver then w
    else CheckObstacles(Harvested(HitWall(Moved(w)), random), 0)
  }

  /** One call of `gameOver`: a score above the high score replaces it, in the record and in storage. */
  function EndSession(w: World): (r: World)
    ensures r.state.gameOver
    ensures r.state.highScore == Larger(w.state.highScore, w.state.score)
    ensures r.state.highScore != w.state.highScore <==> w.state.score > w.state.highScore
    ensures r.persistedHigh == if w.state.score > w.state.highScore then Some(w.state.score) else w.persistedHigh
    ensures r.(state := r.state.(gameOver := w.state.gameOver, highScore := w.state.highScore),
               persistedHigh := w.persistedHigh) == w
  {
    var over := w.(state := w.state.(gameOver := true));
    if over.state.score > over.state.highScore then
      over.(state := over.state.(highScore := over.state.score), persistedHigh := Some(over.state.score))
    else over
  }

  /** The timer service runs one scheduled `gameOver`, if there is one. */
  function FireGameOver(w: World): World
  {
    if w.pendingGameOver == 0 then w
    else EndSession(w.(pendingGameOver := w.pendingGameOver - 1))
  }

  /** The part of `draw` that changes state: the explosion animation advances one frame. */
  function Render(w: World): World
  {
    if !w.state.splashScreen && w.state.started && w.state.exploding then
      w.(state := w.state.(explosionFrame := w.state.explosionFrame + 1))
    else w
  }

  /** Leaving the splash screen, shared by the Space key and a click. */
  function Start(w: World): World
  {
    if w.state.splashScreen then w.(state := w.state.(splashScreen := false, started := true)) else w
  }

  function OnKeyDown(w: World, key: string): World
  {
    var pressed := w.(keys := w.keys + {key});
    if key == " " then Start(pressed) else pressed
  }

  function OnKeyUp(w: World, key: string): World
  {
    w.(keys := w.keys - {key})
  }

  function OnClick(w: World): World
  {
    Start(w)
  }

  /**
   The two counted loops that fill the emptied lists, at page load and in
   `resetGame`: 5 calls of `spawnCarrot`, then 3 of `spawnObstacle`.
   */
  function Seeded(w: World, random: nat -> Draw): World
  {
    var carrotDraws := 2 * StartCarrots;
    w.(carrots := CarrotsFrom(random, w.draws, StartCarrots),
       obstacles := ObstaclesFrom(random, w.draws + carrotDraws, StartObstacles),
       draws := w.draws + carrotDraws + 4 * StartObstacles)
  }

  /** The assignments of `resetGame` before its loops: flags, player, and both lists emptied. */
  function Restore(w: World): World
  {
    w.(state := w.state.(gameOver := false, exploding := false, explosionFrame := 0, score := 0),
       player := StartPlayer, carrots := [], obstacles := [])
  }

  /**
   One call of `resetGame`. The splash flags, the high score and any
   pending timer are left as they are.
   */
  function Reset(w: World, random: nat -> Draw): World
  {
    Seeded(Restore(w), random)
  }

  /** The `state` record as the page script declares it, with the stored high score read (0 when absent). */
  function LoadedState(stored: Option<int>): State
  {
    State(true, false, false, false, 0, 0, stored.GetOr(0))
  }

  /** The globals as the page script declares them, before the start-up loops run. */
  function Loaded(stored: Option<int>): World
  {
    World(LoadedState(stored), StartPlayer, [], [], {}, stored, 0, 0)
  }

  /** The world when the page has loaded: the stored high score is read (0 when absent) and the field seeded. */
  function Initial(stored: Option<int>, random: nat -> Draw): World
  {
    Seeded(Loaded(stored), random)
  }

  /**
   What can happen between two looks at the world: an input handler runs,
   a frame of the game loop runs (`update` then `draw`), or the timer fires.
   Nothing in the page calls `resetGame`, so no event resets the world.
   */
  datatype Event = KeyDown(key: string) | KeyUp(key: string) | Click | Frame | Timer

  function Step(w: World, e: Event, random: nat -> Draw): World
  {
    match e
    case KeyDown(k) => OnKeyDown(w, k)
    case KeyUp(k) => OnKeyUp(w, k)
    case Click => OnClick(w)
    case Frame => Render(Tick(w, random))
    case Timer => FireGameOver(w)
  }

  function Run(w: World, es: seq<Event>, random: nat -> Draw): World
    decreases |es|
  {
    if es == [] then w else Run(Step(w, es[0], random), es[1..], random)
  }
}
