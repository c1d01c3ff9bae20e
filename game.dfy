/**
 The page script's globals and the functions that overwrite them in place.
 One `Game` object stands for the module scope of src/main.js: the `state`
 and `player` records (each a field whose members the methods overwrite),
 the `carrots` and `obstacles` arrays, the `keys` table, the value kept in
 local storage, the `gameOver` calls the timer still owes, and
 `Math.random` as a fixed stream of draws with a cursor. Every method is
 proved to leave the object in the world that the corresponding function
 of `Rules` computes.
 */
module Page {
  import opened Geometry
  import opened Spawn
  import opened Rules

  class Game {
    var state: State
    /** The changing members of the `player` record; its size, gravity and thrust are constants. */
    var player: Player
    var carrots: seq<Box>
    var obstacles: seq<Box>
    /** The keys currently held down. */
    var keys: set<string>
    /** The value under 'rse:highScore' in local storage. */
    var persistedHigh: Option<int>
    /** `setTimeout(gameOver, 500)` calls that have not fired yet. */
    var pendingGameOver: nat
    /** The values successive calls of `Math.random` return, and how many were taken. */
    const random: nat -> Draw
    var draws: nat

    /** The session as a value. */
    ghost function Snapshot(): World
      reads this
    {
      World(state, player, carrots, obstacles, keys, persistedHigh, pendingGameOver, draws)
    }

    /** The page loads: the state record, the player and the initial 5 carrots and 3 obstacles. */
    constructor (stored: Option<int>, random: nat -> Draw)
      ensures this.random == random
      ensures Snapshot() == Initial(stored, random)
    {
      state := LoadedState(stored);
      player := StartPlayer;
      carrots, obstacles, keys := [], [], {};
      persistedHigh := stored;
      pendingGameOver := 0;
      this.random := random;
      draws := 0;
      new;
      assert Snapshot() == Loaded(stored);
      Seed();
    }

    /** One call of `Math.random()`. */
    method NextRandom() returns (r: Draw)
      modifies this`draws
      ensures r == random(old(draws)) && draws == old(draws) + 1
    {
      r := random(draws);
      draws := draws + 1;
    }

    /** `spawnCarrot`: one carrot from two draws pushed at the end. */
    method SpawnCarrot()
      modifies this`carrots, this`draws
      ensures carrots == old(carrots) + [NextCarrot(random, old(draws))]
      ensures draws == old(draws) + 2
    {
      var rx := NextRandom();
      var ry := NextRandom();
      carrots := carrots + [CarrotAt(rx, ry)];
    }

    /** `spawnObstacle`: one obstacle from four draws pushed at the end. */
    method SpawnObstacle()
      modifies this`obstacles, this`draws
      ensures obstacles == old(obstacles) + [NextObstacle(random, old(draws))]
      ensures draws == old(draws) + 4
    {
      var rw := NextRandom();
      var rh := NextRandom();
      var rx := NextRandom();
      var ry := NextRandom();
      obstacles := obstacles + [ObstacleAt(rw, rh, rx, ry)];
    }

    /** `n` calls of `spawnCarrot`, as the counted loops at start-up and in `resetGame` make them. */
    method SpawnCarrots(n: nat)
      requires carrots == []
      modifies this`carrots, this`draws
      ensures carrots == CarrotsFrom(random, old(draws), n)
      ensures draws == old(draws) + 2 * n
    {
      for i := 0 to n
        invariant carrots == CarrotsFrom(random, old(draws), i)
        invariant draws == old(draws) + 2 * i
      {
        SpawnCarrot();
      }
    }

    /** `n` calls of `spawnObstacle`. */
    method SpawnObstacles(n: nat)
      requires obstacles == []
      modifies this`obstacles, this`draws
      ensures obstacles == ObstaclesFrom(random, old(draws), n)
      ensures draws == old(draws) + 4 * n
    {
      for i := 0 to n
        invariant obstacles == ObstaclesFrom(random, old(draws), i)
        invariant draws == old(draws) + 4 * i
      {
        SpawnObstacle();
      }
    }

    /** The two counted loops that seed the emptied field: 5 carrots, then 3 obstacles. */
    method Seed()
      requires carrots == [] && obstacles == []
      modifies this`carrots, this`obstacles, this`draws
      ensures Snapshot() == Seeded(old(Snapshot()), random)
    {
      SpawnCarrots(StartCarrots);
      SpawnObstacles(StartObstacles);
    }

    /** The keydown handler. */
    method KeyDown(key: string)
      modifies this`keys, this`state
      ensures Snapshot() == OnKeyDown(old(Snapshot()), key)
    {
      keys := keys + {key};
      if state.splashScreen && key == " " {
        state := state.(splashScreen := false, started := true);
      }
    }

    /** The keyup handler. */
    method KeyUp(key: string)
      modifies this`keys
      ensures Snapshot() == OnKeyUp(old(Snapshot()), key)
    {
      keys := keys - {key};
    }

    /** The canvas click handler. */
    method Click()
      modifies this`state
      ensures Snapshot() == OnClick(old(Snapshot()))
    {
      if state.splashScreen {
        state := state.(splashScreen := false, started := true);
      }
    }

    /** The lethal hit of a wall or an obstacle, guarded by the latch. */
    method Explode()
      modifies this`state, this`pendingGameOver
      ensures Snapshot() == Rules.Explode(old(Snapshot()))
    {
      if !state.exploding {
        state := state.(exploding := true, explosionFrame := 0);
        pendingGameOver := pendingGameOver + 1;
      }
    }

    /** The movement part of `update`: steering keys, thrust, gravity, the move itself and friction. */
    method MovePlayer()
      modifies this`player
      ensures player == Move(old(player), keys)
    {
      if "ArrowLeft" in keys || "a" in keys {
        player := player.(velocityX := player.velocityX - Steering);
        if player.direction != Left {
          // a change of facing would also restart the swoosh sound
          player := player.(direction := Left);
        }
      }
      if "ArrowRight" in keys || "d" in keys {
        player := player.(velocityX := player.velocityX + Steering);
        if player.direction != Right {
          player := player.(direction := Right);
        }
      }
      if "ArrowUp" in keys || "w" in keys || " " in keys {
        player := player.(velocityY := player.velocityY + Thrust);
      }
      player := player.(velocityY := player.velocityY + Gravity);
      player := player.(x := player.x + player.velocityX, y := player.y + player.velocityY);
      player := player.(velocityX := player.velocityX * Friction, velocityY := player.velocityY * Friction);
    }

    /**
     The carrot `forEach` of `update`: the visited range is fixed at the
     length on entry, a collected carrot is spliced out, 100 is added and a
     new carrot is pushed.
     */
    method CollectCarrots()
      modifies this`carrots, this`draws, this`state
      ensures Snapshot() == Harvested(old(Snapshot()), random)
    {
      ghost var h := Collect(PlayerBox(player), carrots, |carrots|, 0, random, draws);
      var n := |carrots|;
      var i := 0;
      while i < n
        invariant 0 <= i <= n && |carrots| == n
        invariant var rest := Collect(PlayerBox(player), carrots, n, i, random, draws);
          rest.carrots == h.carrots && rest.draws == h.draws &&
          state == old(state).(score := state.score) &&
          state.score + CarrotReward * rest.collected == old(state).score + CarrotReward * h.collected
      {
        if Overlaps(PlayerBox(player), carrots[i]) {
          carrots := carrots[..i] + carrots[i + 1..];
          state := state.(score := state.score + CarrotReward);
          SpawnCarrot();
        }
        i := i + 1;
      }
    }

    /** The obstacle `forEach` of `update`: each overlapping obstacle triggers the latch. */
    method CheckObstacleHits()
      modifies this`state, this`pendingGameOver
      ensures Snapshot() == CheckObstacles(old(Snapshot()), 0)
    {
      var j := 0;
      while j < |obstacles|
        invariant 0 <= j <= |obstacles|
        invariant CheckObstacles(Snapshot(), j) == CheckObstacles(old(Snapshot()), 0)
      {
        if Overlaps(PlayerBox(player), obstacles[j]) {
          Explode();
        }
        j := j + 1;
      }
    }

    /** `update`: one tick of the simulation. */
    method Update()
      modifies this
      ensures Snapshot() == Tick(old(Snapshot()), random)
    {
      if state.splashScreen || state.gameOver {
        return;
      }
      MovePlayer();
      if AtWall(player) {
        Explode();
      }
      CollectCarrots();
      CheckObstacleHits();
    }

    /** `gameOver`: the session ends and a better score becomes the stored high score. */
    method GameOver()
      modifies this`state, this`persistedHigh
      ensures Snapshot() == EndSession(old(Snapshot()))
    {
      state := state.(gameOver := true);
      if state.score > state.highScore {
        state := state.(highScore := state.score);
        persistedHigh := Some(state.highScore);
      }
    }

    /** The `setTimeout` service runs one scheduled `gameOver`, if there is one. */
    method TimerFires()
      modifies this`pendingGameOver, this`state, this`persistedHigh
      ensures Snapshot() == FireGameOver(old(Snapshot()))
    {
      if pendingGameOver > 0 {
        pendingGameOver := pendingGameOver - 1;
        GameOver();
      }
    }

    /** The only state change in `draw`: the explosion animation advances. */
    method DrawFrame()
      modifies this`state
      ensures Snapshot() == Render(old(Snapshot()))
    {
      if state.splashScreen {
        return;
      }
      if !state.started {
        return;
      }
      if state.exploding {
        state := state.(explosionFrame := state.explosionFrame + 1);
      }
    }

    /** The assignments at the head of `resetGame`. */
    method Restore()
      modifies this`state, this`player, this`carrots, this`obstacles
      ensures Snapshot() == Rules.Restore(old(Snapshot()))
    {
      state := state.(gameOver := false, exploding := false, explosionFrame := 0, score := 0);
      player := StartPlayer;
      carrots := [];
      obstacles := [];
    }

    /** `resetGame`: flags and player restored, both arrays emptied and reseeded. */
    method ResetGame()
      modifies this`state, this`player, this`carrots, this`obstacles, this`draws
      ensures Snapshot() == Reset(old(Snapshot()), random)
    {
      Restore();
      Seed();
    }
  }
}
