/** The game state of script.js and everything that changes it: the per-frame
    `gameLoop` (script.js:146-199), `resetGame` (script.js:125-133), the
    bird's `update` and `flap` (script.js:60-84), `addPipe` and `updatePipes`
    (script.js:94-103, 115-123) and the touch and key handlers
    (script.js:203-256). The script's global variables are the fields of one
    `Game` object. */
module Flappy {
  import opened Bird
  import opened Pipes
  import opened Selection

  /** Pixels the background moves left per tick, in every phase. */
  const BackgroundSpeed: real := 0.5
  /** Pixels the floor moves left per tick while the game is not over. */
  const FloorSpeed: real := 0.6
  /** Two pre-game taps closer than this many milliseconds start the game. */
  const DoubleTapWindow: int := 300

  /** The three phases the two flags `isPreGame` and `isGameOver` encode. */
  datatype Phase = PreGame | Running | GameOver

  /** The phase changes any single event or tick may make. */
  predicate Allowed(from: Phase, to: Phase)
  {
    from == to ||
    (from == PreGame && to == Running) ||
    (from == Running && to == GameOver) ||
    (from == GameOver && to == PreGame)
  }

  /** A scroll offset moved left by `speed`, wrapped back to 0 once it
      reaches `-span` (the canvas width). */
  function ScrollOffset(offset: real, speed: real, span: real): (r: real)
    requires span > 0.0 && speed > 0.0
    // the offset stays within one canvas width to the left
    ensures -span < offset <= 0.0 ==> -span < r <= 0.0
    // it moves by `speed`, except when it wraps to 0
    ensures offset - speed > -span ==> r == offset - speed
    ensures r != offset - speed ==> r == 0.0 && offset - speed <= -span
  {
    var moved := offset - speed;
    if moved <= -span then 0.0 else moved
  }

  class Game {
    /** `canvas.width`, `canvas.height` and `floorImage.height`, fixed for the game. */
    const width: real
    const height: real
    const floorHeight: real
    /** `bird.x`: the bird's horizontal position never changes. */
    const birdX: real

    var isPreGame: bool
    var isGameOver: bool
    /** `bird.y` and `bird.velocity`. */
    var y: real
    var velocity: real
    var pipes: seq<Pipe>
    var frame: nat
    var floorX: real
    var backgroundX: real
    var selectedBirdIndex: int
    var touchStartX: real
    /** Time in milliseconds of the last pre-game tap. */
    var lastTapTime: int

    /** The top of the floor, where the bird lands. */
    function FloorTop(): real
    {
      height - floorHeight
    }

    /** The phase the two flags encode. */
    function CurrentPhase(): Phase
      reads this
    {
      if isPreGame then PreGame else if isGameOver then GameOver else Running
    }

    ghost predicate Valid()
      reads this
    {
      width > 0.0 && height > 0.0 && floorHeight >= 0.0 &&
      // the flags never claim pre-game and game over at once
      !(isPreGame && isGameOver) &&
      y >= 0.0 &&
      // after the game ends the bird lies on the floor
      (isGameOver ==> y == RestingY(FloorTop())) &&
      0 <= selectedBirdIndex < BirdCount &&
      -width < floorX <= 0.0 && -width < backgroundX <= 0.0 &&
      (forall p | p in pipes :: WellFormed(p, width, height)) &&
      SortedByX(pipes)
    }

    /** The state when the script has loaded (script.js:35-46, 87-92, 202, 232). */
    constructor (width: real, height: real, floorHeight: real)
      requires width > 0.0 && height > 0.0 && floorHeight >= 0.0
      ensures Valid() && CurrentPhase() == PreGame
      ensures this.width == width && this.height == height && this.floorHeight == floorHeight
      ensures birdX == width / 2.0 - 20.0
      ensures y == height / 2.0 && velocity == 0.0
      ensures pipes == [] && frame == 0 && floorX == 0.0 && backgroundX == 0.0
      ensures selectedBirdIndex == 0 && touchStartX == 0.0 && lastTapTime == 0
    {
      this.width := width;
      this.height := height;
      this.floorHeight := floorHeight;
      birdX := width / 2.0 - 20.0;
      selectedBirdIndex := 0;
      isGameOver := false;
      isPreGame := true;
      y := height / 2.0;
      velocity := 0.0;
      pipes := [];
      frame := 0;
      floorX := 0.0;
      backgroundX := 0.0;
      touchStartX := 0.0;
      lastTapTime := 0;
    }

    /** `bird.update`; `wobble` is `Math.sin(frame / 10) * 10`. The game loop
        calls it only while the game is not over. */
    method UpdateBird(wobble: real)
      requires Valid() && !isGameOver
      modifies this`y, this`velocity, this`isGameOver
      ensures Valid()
      ensures (Motion(y, velocity), isGameOver)
           == Bird.Update(Motion(old(y), old(velocity)), isPreGame, height / 2.0 + wobble, FloorTop())
    {
      if !isPreGame {
        velocity := velocity + Gravity;
        y := y + velocity;
        if y + Bird.Height >= FloorTop() {
          y := FloorTop() - Bird.Height;
          velocity := 0.0;
          isGameOver := true;
        }
      } else {
        y := height / 2.0 + wobble;
      }
      if y < 0.0 {
        y := 0.0;
        velocity := 0.0;
      }
    }

    /** `bird.flap`. */
    method Flap()
      requires Valid()
      modifies this`velocity
      ensures Valid()
      ensures velocity == Lift
    {
      velocity := Lift;
    }

    /** `addPipe`; `r` is the value `Math.random()` returned. */
    method AddPipe(r: real)
      requires Valid() && 0.0 <= r < 1.0
      modifies this`pipes
      ensures Valid()
      ensures pipes == old(pipes) + [SpawnedPipe(r, width, height)]
    {
      var p := SpawnedPipe(r, width, height);
      forall i | 0 <= i < |pipes|
        ensures pipes[i].x <= p.x
      {
        assert pipes[i] in pipes;
      }
      pipes := pipes + [p];
    }

    /** `updatePipes`: walks the list from the back, moving each pipe left and
        splicing it out once it is off screen. */
    method UpdatePipes()
      requires Valid()
      modifies this`pipes
      ensures Valid()
      ensures pipes == Scroll(old(pipes))
      ensures |pipes| <= |old(pipes)|
      ensures forall p | p in pipes :: OnScreen(p)
    {
      ghost var before := pipes;
      var i := |pipes| - 1;
      while i >= 0
        invariant -1 <= i < |before|
        invariant pipes == before[..i + 1] + Scroll(before[i + 1..])
      {
        BackToFrontStep(before, pipes, i);
        pipes := pipes[i := Shift(pipes[i])];
        if pipes[i].x + PipeWidth < 0.0 {
          pipes := pipes[..i] + pipes[i + 1..];
        }
        i := i - 1;
      }
      assert before[..0] == [] && before[0..] == before;
      ScrollSorted(before);
      ScrollWellFormed(before, width, height);
    }

    /** `resetGame`: back to pre-game; the chosen bird and the frame counter stay. */
    method Reset()
      requires Valid()
      modifies this`pipes, this`y, this`velocity, this`isGameOver, this`isPreGame, this`floorX, this`backgroundX
      ensures Valid() && CurrentPhase() == PreGame
      ensures pipes == [] && y == height / 2.0 && velocity == 0.0
      ensures floorX == 0.0 && backgroundX == 0.0
      ensures frame == old(frame) && selectedBirdIndex == old(selectedBirdIndex)
    {
      pipes := [];
      y := height / 2.0;
      velocity := 0.0;
      isGameOver := false;
      isPreGame := true;
      floorX := 0.0;
      backgroundX := 0.0;
    }

    /** The part of `gameLoop` that runs while the game is not over: the bird
        moves, pipes spawn and scroll while running, and the floor scrolls. */
    method Play(wobble: real, r: real)
      requires Valid() && !isGameOver && 0.0 <= r < 1.0
      modifies this`floorX, this`y, this`velocity, this`isGameOver, this`pipes
      ensures Valid()
      ensures (Motion(y, velocity), isGameOver)
           == Bird.Update(Motion(old(y), old(velocity)), isPreGame, height / 2.0 + wobble, FloorTop())
      ensures floorX == ScrollOffset(old(floorX), FloorSpeed, width)
      // pipes spawn and scroll only while running, also on the tick the bird lands
      ensures !isPreGame ==>
                pipes == Scroll(old(pipes) + if SpawnsAt(frame) then [SpawnedPipe(r, width, height)] else [])
      ensures isPreGame ==> pipes == old(pipes)
    {
      UpdateBird(wobble);
      if !isPreGame {
        if frame % SpawnInterval == 0 {
          AddPipe(r);
        } else {
          assert pipes == old(pipes) + [];
        }
        UpdatePipes();
      }
      floorX := ScrollOffset(floorX, FloorSpeed, width);
    }

    /** One `gameLoop` call without its drawing: `wobble` is
        `Math.sin(frame / 10) * 10`, `r` the `Math.random()` value a spawn would use. */
    method Tick(wobble: real, r: real)
      requires Valid() && 0.0 <= r < 1.0
      // the phase flag isPreGame, the selection and the touch state are left alone
      modifies this`backgroundX, this`floorX, this`frame, this`y, this`velocity, this`isGameOver, this`pipes
      ensures Valid() && Allowed(old(CurrentPhase()), CurrentPhase())
      ensures frame == old(frame) + 1
      // the background scrolls in every phase
      ensures backgroundX == ScrollOffset(old(backgroundX), BackgroundSpeed, width)
      // after game over the bird, the floor and the pipes stand still
      ensures old(isGameOver) ==>
                isGameOver && y == old(y) && velocity == old(velocity) &&
                floorX == old(floorX) && pipes == old(pipes)
      // otherwise the bird moves and the floor scrolls
      ensures !old(isGameOver) ==>
                (Motion(y, velocity), isGameOver)
                  == Bird.Update(Motion(old(y), old(velocity)), isPreGame, height / 2.0 + wobble, FloorTop()) &&
                floorX == ScrollOffset(old(floorX), FloorSpeed, width)
      // a pipe spawns on running ticks whose frame is a multiple of 90; pipes move only while running
      ensures old(CurrentPhase()) == Running ==>
                pipes == Scroll(old(pipes) + if SpawnsAt(old(frame)) then [SpawnedPipe(r, width, height)] else [])
      ensures old(CurrentPhase()) != Running ==> pipes == old(pipes)
    {
      backgroundX := ScrollOffset(backgroundX, BackgroundSpeed, width);
      if !isGameOver {
        Play(wobble, r);
      }
      frame := frame + 1;
    }

    /** `touchstart`: in pre-game it sets the swipe reference point, otherwise
        it flaps, also after game over. */
    method TouchStart(clientX: real)
      requires Valid()
      modifies this`touchStartX, this`velocity
      ensures Valid()
      ensures old(isPreGame) ==> touchStartX == clientX && velocity == old(velocity)
      ensures !old(isPreGame) ==> velocity == Lift && touchStartX == old(touchStartX)
    {
      if isPreGame {
        touchStartX := clientX;
      } else {
        Flap();
      }
    }

    /** `touchmove`: a swipe changes the selected bird, in pre-game only. */
    method TouchMove(clientX: real)
      requires Valid()
      modifies this`selectedBirdIndex, this`touchStartX
      ensures Valid()
      ensures old(isPreGame) ==>
                (selectedBirdIndex, touchStartX) == Swipe(old(selectedBirdIndex), old(touchStartX), clientX)
      ensures !old(isPreGame) ==>
                selectedBirdIndex == old(selectedBirdIndex) && touchStartX == old(touchStartX)
    {
      if isPreGame {
        var touchEndX := clientX;
        if touchEndX < touchStartX - SwipeThreshold {
          if selectedBirdIndex > 0 {
            selectedBirdIndex := selectedBirdIndex - 1;
          }
          touchStartX := touchEndX;
        } else if touchEndX > touchStartX + SwipeThreshold {
          if selectedBirdIndex < BirdCount - 1 {
            selectedBirdIndex := selectedBirdIndex + 1;
          }
          touchStartX := touchEndX;
        }
      }
    }

    /** `touchend` at time `now` (milliseconds): a pre-game double tap starts
        the game, a tap after game over resets it, a tap while running flaps. */
    method TouchEnd(now: int)
      requires Valid()
      // the frame counter, the selection and the swipe reference point are left alone
      modifies this`isPreGame, this`lastTapTime, this`pipes, this`y, this`velocity, this`isGameOver,
               this`floorX, this`backgroundX
      ensures Valid() && Allowed(old(CurrentPhase()), CurrentPhase())
      ensures old(CurrentPhase()) == PreGame ==>
                lastTapTime == now &&
                (CurrentPhase() == Running <==> now - old(lastTapTime) < DoubleTapWindow) &&
                CurrentPhase() != GameOver &&
                y == old(y) && velocity == old(velocity) && pipes == old(pipes) &&
                floorX == old(floorX) && backgroundX == old(backgroundX)
      ensures old(CurrentPhase()) == GameOver ==>
                CurrentPhase() == PreGame && lastTapTime == old(lastTapTime) &&
                pipes == [] && y == height / 2.0 && velocity == 0.0 &&
                floorX == 0.0 && backgroundX == 0.0
      ensures old(CurrentPhase()) == Running ==>
                CurrentPhase() == Running && velocity == Lift && lastTapTime == old(lastTapTime) &&
                y == old(y) && pipes == old(pipes) &&
                floorX == old(floorX) && backgroundX == old(backgroundX)
    {
      if isPreGame {
        var currentTime := now;
        if currentTime - lastTapTime < DoubleTapWindow {
          isPreGame := false;
        }
        lastTapTime := currentTime;
      } else if isGameOver {
        Reset();
      } else {
        Flap();
      }
    }

    /** `keydown`: any key starts the game, resets it after game over, or flaps. */
    method KeyDown()
      requires Valid()
      // the frame counter, the selection and the touch state are left alone
      modifies this`isPreGame, this`pipes, this`y, this`velocity, this`isGameOver, this`floorX, this`backgroundX
      ensures Valid() && Allowed(old(CurrentPhase()), CurrentPhase())
      ensures old(CurrentPhase()) == PreGame ==>
                CurrentPhase() == Running &&
                y == old(y) && velocity == old(velocity) && pipes == old(pipes) &&
                floorX == old(floorX) && backgroundX == old(backgroundX)
      ensures old(CurrentPhase()) == GameOver ==>
                CurrentPhase() == PreGame &&
                pipes == [] && y == height / 2.0 && velocity == 0.0 &&
                floorX == 0.0 && backgroundX == 0.0
      ensures old(CurrentPhase()) == Running ==>
                CurrentPhase() == Running && velocity == Lift &&
                y == old(y) && pipes == old(pipes) &&
                floorX == old(floorX) && backgroundX == old(backgroundX)
    {
      if isPreGame {
        isPreGame := false;
      } else if isGameOver {
        Reset();
      } else {
        Flap();
      }
    }
  }

  /** The physics scenario: start with a key, one tick falls by gravity
      alone; a flap then one tick gives `lift + gravity`. */
  method FlapScenario()
  {
    var g := new Game(400.0, 600.0, 100.0);
    g.KeyDown();
    assert g.CurrentPhase() == Running;
    g.Tick(0.0, 0.5);
    assert g.velocity == 0.6 && g.y == 300.6 && g.CurrentPhase() == Running;
    assert |g.pipes| == 1;
    g.Flap();
    g.Tick(0.0, 0.5);
    assert g.velocity == -7.4 && g.CurrentPhase() == Running;
  }
}
