/**
 * The session logic of flappybird/game_functions.py: input dispatch for keys and
 * clicks, the per-frame world update (warm-up, scrolling, pipe movement and
 * distance-based spawning), collision handling, scoring, and starting, resetting
 * and restyling a game. The pixel-mask collision is an input flag and the random
 * gap centre an input integer.
 */
module GameFunctions {
  import opened Geometry
  import opened GameSettings
  import opened BirdSprite
  import opened PipeGroups
  import opened GameStats
  import opened ScrollElements

  /** Identities of cleared pipes were all handed out by the group, so a new pipe is never already cleared. */
  ghost predicate ClearedAreIssued(pipes: PipeGroup, stats: Stats)
    reads pipes, stats
  {
    forall id :: id in stats.pipesCleared ==> id < pipes.nextId
  }

  /** The group gained the bottom and the top member around gap centre `g`, under the next two identities. */
  twostate predicate PairAdded(pipes: PipeGroup, cfg: Config, g: int)
    reads pipes
  {
    var n := old(pipes.nextId);
    && pipes.nextId == n + 2
    && pipes.pipes == old(pipes.pipes)[n := NewPipe(g as real, 0, cfg)][n + 1 := NewPipe(g as real, TOP_LOCATION, cfg)]
  }

  /** The bird took the flap impulse and nothing else about it changed. */
  twostate predicate Flapped(bird: Bird)
    reads bird
  {
    && bird.velocity == -bird.jumpVelocity && bird.prevJumpElev == old(bird.y)
    && bird.x == old(bird.x) && bird.y == old(bird.y) && bird.angle == old(bird.angle)
    && bird.rect == old(bird.rect) && bird.color == old(bird.color)
    && bird.currentFrame == old(bird.currentFrame) && bird.animationTime == old(bird.animationTime)
    && bird.idleTime == old(bird.idleTime)
  }

  /** The state right after a reset: a ready phase, a zero score, the bird in its start pose, no pipes. */
  twostate predicate WasReset(bird: Bird, pipes: PipeGroup, stats: Stats, settings: Settings)
    reads bird, pipes, stats, settings
  {
    && settings.state == Ready && settings.travelDistance == 0.0 && settings.idleTime == 0
    && settings.startDelay == old(settings.startDelay) && settings.pipeColor == old(settings.pipeColor)
    && stats.score == 0 && stats.highScore == old(stats.highScore)
    && stats.pipesCleared == old(stats.pipesCleared)
    && bird.AtStart() && bird.color == old(bird.color)
    && bird.rect.width == old(bird.rect.width) && bird.rect.height == old(bird.rect.height)
    && pipes.pipes == map[] && pipes.nextId == old(pipes.nextId)
  }

  /** The play phase began with one new pair around `g`; the timers, the accumulator and the pipe colour are kept. */
  twostate predicate Started(pipes: PipeGroup, settings: Settings, g: int)
    reads pipes, settings
  {
    && settings.state == Play && PairAdded(pipes, settings.cfg, g)
    && settings.travelDistance == old(settings.travelDistance) && settings.idleTime == old(settings.idleTime)
    && settings.startDelay == old(settings.startDelay) && settings.pipeColor == old(settings.pipeColor)
  }

  /** The bird shows the next colour sheet, and nothing else about it changed. */
  twostate predicate Recoloured(bird: Bird)
    reads bird
  {
    && bird.numColors > 0 && bird.color == (old(bird.color) + 1) % bird.numColors
    && bird.x == old(bird.x) && bird.y == old(bird.y) && bird.velocity == old(bird.velocity)
    && bird.angle == old(bird.angle) && bird.prevJumpElev == old(bird.prevJumpElev) && bird.rect == old(bird.rect)
    && bird.currentFrame == old(bird.currentFrame) && bird.animationTime == old(bird.animationTime)
    && bird.idleTime == old(bird.idleTime)
  }

  /** The pipe colour and the backdrop scene moved on; no tile moved and the phase and timers are kept. */
  twostate predicate SceneChanged(background: ScrollElem, settings: Settings)
    reads background, settings
  {
    && settings.cfg.numPipeColors > 0
    && settings.pipeColor == (old(settings.pipeColor) + 1) % settings.cfg.numPipeColors
    && settings.state == old(settings.state) && settings.travelDistance == old(settings.travelDistance)
    && settings.idleTime == old(settings.idleTime) && settings.startDelay == old(settings.startDelay)
    && background.numImages > 0 && background.scene == (old(background.scene) + 1) % background.numImages
    && background.xs == old(background.xs) && background.rects == old(background.rects)
  }

  /**
   * `create_new_pipes`: a bottom member (location 0) and a top member (location 1) around
   * the same gap centre `g`, drawn from `[gapYMin, gapYMax]`, join the group.
   */
  method CreateNewPipes(pipes: PipeGroup, settings: Settings, g: int)
    requires pipes.Valid() && settings.Valid() && pipes.gapHeight == settings.cfg.gapHeight as real
    requires settings.cfg.gapYMin <= g as real <= settings.cfg.gapYMax
    modifies pipes
    ensures pipes.Valid() && PairAdded(pipes, settings.cfg, g)
  {
    var gapY := g as real;
    AddPairPreservesPaired(pipes.pipes, pipes.nextId, gapY, settings.cfg);
    var bottom := pipes.Add(NewPipe(gapY, 0, settings.cfg));
    var top := pipes.Add(NewPipe(gapY, TOP_LOCATION, settings.cfg));
  }

  /** `start_game`: the play phase begins with one pair of pipes. */
  method StartGame(pipes: PipeGroup, settings: Settings, g: int)
    requires pipes.Valid() && settings.Valid() && pipes.gapHeight == settings.cfg.gapHeight as real
    requires settings.cfg.gapYMin <= g as real <= settings.cfg.gapYMax
    modifies pipes, settings
    ensures pipes.Valid() && settings.Valid() && Started(pipes, settings, g)
  {
    // the two steps touch different objects, so the pipes are added first
    CreateNewPipes(pipes, settings, g);
    settings.state := Play;
  }

  /**
   * `reset_game`: the settings, the score and the bird return to their new-game values
   * and the pipe group is emptied; the high score, the cleared set and the warm-up timer
   * are kept.
   */
  method ResetGame(bird: Bird, pipes: PipeGroup, stats: Stats, settings: Settings)
    requires bird.Valid() && pipes.Valid()
    modifies bird, pipes, stats, settings
    ensures bird.Valid() && pipes.Valid()
    ensures WasReset(bird, pipes, stats, settings)
    ensures old(ClearedAreIssued(pipes, stats)) ==> ClearedAreIssued(pipes, stats)
  {
    settings.InitDynamicVariables();
    stats.InitDynamicVariables();
    bird.InitDynamicVariables();
    pipes.Empty();
  }

  /** `change_world_scene`: the next pipe colour, and the next backdrop scene. */
  method ChangeWorldScene(background: ScrollElem, settings: Settings)
    requires background.Valid() && settings.Valid()
    modifies background, settings
    ensures background.Valid() && settings.Valid() && SceneChanged(background, settings)
  {
    settings.pipeColor := (settings.pipeColor + 1) % settings.cfg.numPipeColors;
    background.ChangeScene();
  }

  /** Whether this frame's world update ends the warm-up-free travel with a spawn. */
  predicate SpawnDue(settings: Settings, dt: int)
    reads settings
  {
    && settings.state == Play
    && settings.startDelay >= settings.cfg.maxStartDelay
    && settings.travelDistance + settings.cfg.worldVelocity * dt as real > settings.cfg.pipeSpacing as real
  }

  /**
   * `update_world` for a frame of `dt` milliseconds. In the game-over phase nothing
   * moves. Otherwise the backdrop and the ground scroll. In the play phase, during the
   * warm-up only the warm-up timer runs; after it the pipes advance, the travel
   * accumulator grows by `worldVelocity * dt`, and once it exceeds `pipeSpacing` a new
   * pair around gap centre `g` is added and the accumulator restarts from 0.
   */
  method UpdateWorld(pipes: PipeGroup, background: ScrollElem, ground: ScrollElem, dt: int,
                     settings: Settings, g: int)
    requires pipes.Valid() && background.Valid() && ground.Valid() && settings.Valid()
    requires pipes.gapHeight == settings.cfg.gapHeight as real
    requires background != ground
    requires SpawnDue(settings, dt) ==> settings.cfg.gapYMin <= g as real <= settings.cfg.gapYMax
    modifies pipes, settings, background, ground
    ensures pipes.Valid() && background.Valid() && ground.Valid() && settings.Valid()
    ensures old(settings.state) == GameOver ==>
              unchanged(background, ground)
    ensures old(settings.state) != GameOver ==> Scrolled(background, dt) && Scrolled(ground, dt)
    ensures old(settings.state) != Play ==> unchanged(settings, pipes)
    ensures old(settings.state) == Play ==> Played(pipes, settings, dt, g)
  {
    if settings.state != GameOver {
      background.Update(dt);
      ground.Update(dt);
      if settings.state == Play {
        PlayFrame(pipes, dt, settings, g);
      }
    }
  }

  /**
   * A frame of the play phase: during the warm-up only the warm-up timer grows by `dt`;
   * after it, the pipes moved as `PipesMoved` says.
   */
  twostate predicate Played(pipes: PipeGroup, settings: Settings, dt: int, g: int)
    reads pipes, settings
  {
    if old(settings.startDelay) < settings.cfg.maxStartDelay then
      && settings.startDelay == old(settings.startDelay) + dt
      && settings.state == old(settings.state) && settings.travelDistance == old(settings.travelDistance)
      && settings.idleTime == old(settings.idleTime) && settings.pipeColor == old(settings.pipeColor)
      && unchanged(pipes)
    else
      PipesMoved(pipes, settings, dt, g)
  }

  /** The play-phase branch of `update_world`: the warm-up timer, or the pipes. */
  method PlayFrame(pipes: PipeGroup, dt: int, settings: Settings, g: int)
    requires pipes.Valid() && settings.Valid() && pipes.gapHeight == settings.cfg.gapHeight as real
    requires settings.startDelay >= settings.cfg.maxStartDelay &&
             settings.travelDistance + settings.cfg.worldVelocity * dt as real > settings.cfg.pipeSpacing as real ==>
               settings.cfg.gapYMin <= g as real <= settings.cfg.gapYMax
    modifies pipes, settings
    ensures pipes.Valid() && settings.Valid()
    ensures Played(pipes, settings, dt, g)
  {
    if settings.startDelay < settings.cfg.maxStartDelay {
      settings.startDelay := settings.startDelay + dt;
    } else {
      MovePipes(pipes, dt, settings, g);
    }
  }

  /**
   * A frame of the play phase after the warm-up: the pipes advanced by `dt` and the travel
   * accumulator grew by `worldVelocity * dt`; past `pipeSpacing` a new pair around gap
   * centre `g` joined under the next two identities and the accumulator restarted from 0.
   * The phase, the timers and the pipe colour are as they were.
   */
  twostate predicate PipesMoved(pipes: PipeGroup, settings: Settings, dt: int, g: int)
    reads pipes, settings
  {
    var moved := AdvanceAll(old(pipes.pipes), dt);
    var n := old(pipes.nextId);
    var travel := old(settings.travelDistance) + settings.cfg.worldVelocity * dt as real;
    && settings.state == old(settings.state) && settings.startDelay == old(settings.startDelay)
    && settings.idleTime == old(settings.idleTime) && settings.pipeColor == old(settings.pipeColor)
    && if travel > settings.cfg.pipeSpacing as real
       then && settings.travelDistance == 0.0 && pipes.nextId == n + 2
            && pipes.pipes == moved[n := NewPipe(g as real, 0, settings.cfg)][n + 1 := NewPipe(g as real, TOP_LOCATION, settings.cfg)]
       else settings.travelDistance == travel && pipes.nextId == n && pipes.pipes == moved
  }

  /**
   * The play-phase part of `update_world` after the warm-up: the pipes advance, the travel
   * accumulator grows by `worldVelocity * dt`, and past `pipeSpacing` a new pair around gap
   * centre `g` is added and the accumulator restarts from 0.
   */
  method MovePipes(pipes: PipeGroup, dt: int, settings: Settings, g: int)
    requires pipes.Valid() && settings.Valid() && pipes.gapHeight == settings.cfg.gapHeight as real
    requires settings.travelDistance + settings.cfg.worldVelocity * dt as real > settings.cfg.pipeSpacing as real ==>
               settings.cfg.gapYMin <= g as real <= settings.cfg.gapYMax
    modifies pipes, settings
    ensures pipes.Valid() && settings.Valid()
    ensures PipesMoved(pipes, settings, dt, g)
  {
    pipes.Update(dt);
    var travel := settings.travelDistance + settings.cfg.worldVelocity * dt as real;
    if travel > settings.cfg.pipeSpacing as real {
      CreateNewPipes(pipes, settings, g);
      travel := 0.0;
    }
    settings.travelDistance := travel;
  }

  /** A hit: the mask collision reported by the framework, the rect below the ground, or above the screen. */
  predicate Hit(r: Rect, groundElev: int, collided: bool) {
    collided || r.Bottom() > groundElev as real || r.top < 0.0
  }

  /**
   * `check_collisions`: on a hit the bird is frozen at its rect's centre with zero
   * velocity and the game is over; without one nothing changes.
   */
  method CheckCollisions(bird: Bird, settings: Settings, collided: bool)
    requires bird.Valid()
    modifies bird, settings
    ensures bird.Valid()
    ensures Hit(old(bird.rect), settings.cfg.groundElev, collided) ==>
              && bird.x == old(bird.rect.CenterX()) && bird.y == old(bird.rect.CenterY())
              && bird.velocity == 0.0 && settings.state == GameOver
              && bird.rect == old(bird.rect) && bird.angle == old(bird.angle) && bird.color == old(bird.color)
              && bird.prevJumpElev == old(bird.prevJumpElev) && bird.currentFrame == old(bird.currentFrame)
              && bird.animationTime == old(bird.animationTime) && bird.idleTime == old(bird.idleTime)
              && settings.travelDistance == old(settings.travelDistance) && settings.idleTime == old(settings.idleTime)
              && settings.startDelay == old(settings.startDelay) && settings.pipeColor == old(settings.pipeColor)
    ensures !Hit(old(bird.rect), settings.cfg.groundElev, collided) ==> unchanged(bird, settings)
  {
    if collided || bird.rect.Bottom() > settings.cfg.groundElev as real || bird.rect.top < 0.0 {
      bird.x := bird.rect.CenterX();
      bird.y := bird.rect.CenterY();
      bird.velocity := 0.0;
      settings.state := GameOver;
    }
  }

  /** A pipe the bird scores for: a bottom member whose right edge the bird's left edge has passed. */
  predicate Passed(p: PipeRec, birdLeft: real) {
    p.location == 0 && birdLeft > p.rect.Right()
  }

  /** The pipes a scoring pass credits: passed bottom members not credited before. */
  function Credited(ps: map<nat, PipeRec>, birdLeft: real, cleared: set<nat>): (c: set<nat>)
    ensures c <= ps.Keys && c !! cleared
    ensures forall id :: id in c ==> Passed(ps[id], birdLeft)
    ensures forall id :: id in ps && Passed(ps[id], birdLeft) ==> id in c || id in cleared
  {
    set id | id in ps && Passed(ps[id], birdLeft) && id !in cleared
  }

  /**
   * `check_score`: every pipe the bird has passed that is not yet cleared enters the
   * cleared set and scores one point.
   */
  method CheckScore(bird: Bird, pipes: PipeGroup, stats: Stats)
    modifies stats
    ensures var c := Credited(pipes.pipes, bird.rect.left, old(stats.pipesCleared));
            && stats.pipesCleared == old(stats.pipesCleared) + c
            && stats.score == old(stats.score) + |c|
    ensures stats.highScore == old(stats.highScore)
    ensures old(ClearedAreIssued(pipes, stats)) && pipes.Valid() ==> ClearedAreIssued(pipes, stats)
  {
    CreditPassed(pipes.pipes, bird.rect.left, stats);
  }

  /** The loop of `check_score` over the pipes `ps`, for a bird whose left edge is at `birdLeft`. */
  method CreditPassed(ps: map<nat, PipeRec>, birdLeft: real, stats: Stats)
    modifies stats
    ensures var c := Credited(ps, birdLeft, old(stats.pipesCleared));
            && stats.pipesCleared == old(stats.pipesCleared) + c
            && stats.score == old(stats.score) + |c|
    ensures stats.highScore == old(stats.highScore)
  {
    var todo := ps.Keys;
    ghost var done: set<nat> := {};
    ghost var cleared0 := stats.pipesCleared;
    ghost var credited: set<nat> := {};
    while todo != {}
      invariant todo <= ps.Keys && done == ps.Keys - todo
      invariant CreditedSoFar(ps, done, birdLeft, cleared0, credited)
      invariant stats.pipesCleared == cleared0 + credited
      invariant stats.score == old(stats.score) + |credited|
      invariant stats.highScore == old(stats.highScore)
      decreases |todo|
    {
      var id :| id in todo;
      credited := CreditOne(ps, id, birdLeft, stats, done, cleared0, credited);
      todo := todo - {id};
      done := done + {id};
    }
    CreditedSoFarIsCredited(ps, done, birdLeft, cleared0, credited);
  }

  /**
   * The body of that loop for the pipe named `id`: it is credited when the bird has
   * passed it and it is not cleared yet.
   */
  method CreditOne(ps: map<nat, PipeRec>, id: nat, birdLeft: real, stats: Stats,
                   ghost done: set<nat>, ghost cleared0: set<nat>, ghost credited: set<nat>)
    returns (ghost credited': set<nat>)
    requires id in ps && id !in done && CreditedSoFar(ps, done, birdLeft, cleared0, credited)
    requires stats.pipesCleared == cleared0 + credited
    modifies stats
    ensures CreditedSoFar(ps, done + {id}, birdLeft, cleared0, credited')
    ensures stats.pipesCleared == cleared0 + credited'
    ensures stats.score == old(stats.score) + |credited'| - |credited|
    ensures stats.highScore == old(stats.highScore)
  {
    var pipe := ps[id];
    credited' := credited;
    if birdLeft > pipe.rect.Right() && id !in stats.pipesCleared && pipe.location == 0 {
      stats.pipesCleared := stats.pipesCleared + {id};
      stats.IncreaseScore();
      credited' := credited + {id};
    }
  }

  /** `credited` is what the scoring pass has credited after looking at the pipes `done`. */
  ghost predicate CreditedSoFar(ps: map<nat, PipeRec>, done: set<nat>, birdLeft: real, cleared: set<nat>,
                                credited: set<nat>)
  {
    && credited <= done && credited !! cleared
    && (forall id :: id in done && id in ps && Passed(ps[id], birdLeft) && id !in cleared ==> id in credited)
    && (forall id :: id in credited ==> id in ps && Passed(ps[id], birdLeft))
  }

  lemma CreditedSoFarIsCredited(ps: map<nat, PipeRec>, done: set<nat>, birdLeft: real, cleared: set<nat>,
                                credited: set<nat>)
    requires done == ps.Keys && CreditedSoFar(ps, done, birdLeft, cleared, credited)
    ensures credited == Credited(ps, birdLeft, cleared)
  {
  }

  /** A second scoring pass over unchanged positions credits nothing. */
  lemma ScoringIsIdempotent(ps: map<nat, PipeRec>, birdLeft: real, cleared: set<nat>)
    ensures Credited(ps, birdLeft, cleared + Credited(ps, birdLeft, cleared)) == {}
  {
  }

  /** Only bottom members score, so each pair of pipes is worth at most one point. */
  lemma OnePointPerPair(pipes: PipeGroup, birdLeft: real, cleared: set<nat>, id: nat)
    requires pipes.Valid() && id in Credited(pipes.pipes, birdLeft, cleared)
    ensures id % 2 == 0 && Partner(id) !in Credited(pipes.pipes, birdLeft, cleared)
  {
  }

  /** The keys the game reacts to. */
  datatype Key = KeyQ | KeySpace | OtherKey

  /**
   * `check_keydown_events`: Q asks to quit; space in the ready phase starts the game and,
   * the phase being play by then, flaps in the same press; space in play flaps.
   */
  method CheckKeydownEvents(key: Key, bird: Bird, pipes: PipeGroup, settings: Settings, g: int)
    returns (quit: bool)
    requires pipes.Valid() && settings.Valid() && pipes.gapHeight == settings.cfg.gapHeight as real
    requires key == KeySpace && settings.state == Ready ==> settings.cfg.gapYMin <= g as real <= settings.cfg.gapYMax
    modifies bird, pipes, settings
    ensures pipes.Valid() && settings.Valid()
    ensures quit <==> key == KeyQ
    ensures key != KeySpace ==> unchanged(bird, pipes, settings)
    ensures key == KeySpace && old(settings.state) == Ready ==>
              Started(pipes, settings, g) && Flapped(bird)
    ensures key == KeySpace && old(settings.state) == Play ==>
              settings.state == Play && unchanged(pipes, settings) && Flapped(bird)
    ensures key == KeySpace && old(settings.state) in {Splash, GameOver} ==> unchanged(bird, pipes, settings)
  {
    if key == KeyQ {
      return true;
    }
    if key == KeySpace {
      if settings.state == Ready {
        StartGame(pipes, settings, g);
      }
      if settings.state == Play {
        bird.Flap();
      }
    }
    return false;
  }

  datatype Action = NewGame | OtherAction

  /** A button as a click sees it: whether the pointer is on it, what it does, whether it is enabled. */
  datatype Button = Button(hovered: bool, action: Action, active: bool)

  predicate Presses(b: Button) {
    b.hovered && b.action == NewGame && b.active
  }

  predicate NewGameClicked(buttons: seq<Button>) {
    exists i :: 0 <= i < |buttons| && Presses(buttons[i])
  }

  /**
   * The button pass of `check_click_events`: a left click on an enabled new-game button
   * in the game-over phase resets the game, once however many buttons qualify, since the
   * phase is ready after the first reset.
   */
  method ClickButtons(buttons: seq<Button>, left: bool, bird: Bird, pipes: PipeGroup, stats: Stats,
                      settings: Settings)
    requires bird.Valid() && pipes.Valid()
    modifies bird, pipes, stats, settings
    ensures bird.Valid() && pipes.Valid()
    ensures old(settings.state) == GameOver && left && NewGameClicked(buttons) ==>
              WasReset(bird, pipes, stats, settings)
    ensures !(old(settings.state) == GameOver && left && NewGameClicked(buttons)) ==>
              unchanged(bird, pipes, stats, settings)
    ensures old(ClearedAreIssued(pipes, stats)) ==> ClearedAreIssued(pipes, stats)
  {
    var i := 0;
    while i < |buttons|
      invariant 0 <= i <= |buttons|
      invariant bird.Valid() && pipes.Valid()
      invariant old(settings.state) == GameOver && left && (exists j :: 0 <= j < i && Presses(buttons[j])) ==>
                  WasReset(bird, pipes, stats, settings)
      invariant !(old(settings.state) == GameOver && left && (exists j :: 0 <= j < i && Presses(buttons[j]))) ==>
                  unchanged(bird, pipes, stats, settings)
      invariant old(ClearedAreIssued(pipes, stats)) ==> ClearedAreIssued(pipes, stats)
    {
      var button := buttons[i];
      if button.hovered && left {
        if settings.state == GameOver && button.action == NewGame && button.active {
          ResetGame(bird, pipes, stats, settings);
        }
      }
      i := i + 1;
    }
  }

  /**
   * The menu pass of `check_click_events`, in the splash and ready phases: a left click
   * while ready starts the game; otherwise a right click changes the bird's colour, and
   * otherwise a middle click changes the world scene.
   */
  method ClickMenu(left: bool, middle: bool, right: bool, bird: Bird, pipes: PipeGroup,
                   background: ScrollElem, settings: Settings, g: int)
    requires bird.Valid() && pipes.Valid() && background.Valid() && settings.Valid()
    requires pipes.gapHeight == settings.cfg.gapHeight as real
    requires left && settings.state == Ready ==> settings.cfg.gapYMin <= g as real <= settings.cfg.gapYMax
    modifies bird, pipes, background, settings
    ensures bird.Valid() && pipes.Valid() && background.Valid() && settings.Valid()
    ensures old(settings.state) !in {Splash, Ready} ==> unchanged(bird, pipes, background, settings)
    ensures old(settings.state) == Ready && left ==>
              Started(pipes, settings, g) && unchanged(bird, background)
    ensures old(settings.state) in {Splash, Ready} && !(left && old(settings.state) == Ready) && right ==>
              Recoloured(bird) && unchanged(pipes, background, settings)
    ensures old(settings.state) in {Splash, Ready} && !(left && old(settings.state) == Ready) && !right && middle ==>
              SceneChanged(background, settings) && unchanged(bird, pipes)
    ensures old(settings.state) in {Splash, Ready} && !(left && old(settings.state) == Ready) && !right && !middle ==>
              unchanged(bird, pipes, background, settings)
  {
    if settings.state == Splash || settings.state == Ready {
      if left && settings.state == Ready {
        StartGame(pipes, settings, g);
      } else if right {
        bird.ChangeColor();
      } else if middle {
        ChangeWorldScene(background, settings);
      }
    }
  }

  /**
   * `check_click_events` for a click with the given buttons held: the menu pass, then a
   * left click in play flaps (so a left click while ready both starts the game and flaps),
   * and otherwise the button pass.
   */
  method CheckClickEvents(buttons: seq<Button>, left: bool, middle: bool, right: bool, bird: Bird,
                          pipes: PipeGroup, background: ScrollElem, stats: Stats, settings: Settings, g: int)
    requires bird.Valid() && pipes.Valid() && background.Valid() && settings.Valid()
    requires pipes.gapHeight == settings.cfg.gapHeight as real
    requires left && settings.state == Ready ==> settings.cfg.gapYMin <= g as real <= settings.cfg.gapYMax
    modifies bird, pipes, background, stats, settings
    ensures bird.Valid() && pipes.Valid() && background.Valid() && settings.Valid()
    ensures old(settings.state) == Ready && left ==>
              Started(pipes, settings, g) && Flapped(bird) && unchanged(background, stats)
    ensures old(settings.state) == Play && left ==> Flapped(bird) && unchanged(pipes, background, stats, settings)
    ensures old(settings.state) == Play && !left ==> unchanged(bird, pipes, background, stats, settings)
    ensures old(settings.state) == GameOver && left && NewGameClicked(buttons) ==>
              WasReset(bird, pipes, stats, settings) && unchanged(background)
    ensures old(settings.state) == GameOver && !(left && NewGameClicked(buttons)) ==>
              unchanged(bird, pipes, background, stats, settings)
    ensures old(settings.state) in {Splash, Ready} && !(left && old(settings.state) == Ready) && right ==>
              Recoloured(bird) && unchanged(pipes, background, stats, settings)
    ensures old(settings.state) in {Splash, Ready} && !(left && old(settings.state) == Ready) && !right && middle ==>
              SceneChanged(background, settings) && unchanged(bird, pipes, stats)
    ensures old(settings.state) in {Splash, Ready} && !(left && old(settings.state) == Ready) && !right && !middle ==>
              unchanged(bird, pipes, background, stats, settings)
    ensures old(ClearedAreIssued(pipes, stats)) ==> ClearedAreIssued(pipes, stats)
  {
    ClickMenu(left, middle, right, bird, pipes, background, settings, g);
    if settings.state == Play && left {
      bird.Flap();
    } else {
      ClickButtons(buttons, left, bird, pipes, stats, settings);
    }
  }

  /**
   * The one piece of state `draw` advances: in the ready phase the idle timer runs
   * until it has reached the get-ready delay (after which the prompts fade in).
   */
  method CountIdleTime(settings: Settings, dt: int)
    modifies settings
    ensures old(settings.state) == Ready && old(settings.idleTime) < settings.cfg.getReadyDelay ==>
              settings.idleTime == old(settings.idleTime) + dt
    ensures !(old(settings.state) == Ready && old(settings.idleTime) < settings.cfg.getReadyDelay) ==>
              settings.idleTime == old(settings.idleTime)
    ensures settings.state == old(settings.state) && settings.travelDistance == old(settings.travelDistance)
    ensures settings.startDelay == old(settings.startDelay) && settings.pipeColor == old(settings.pipeColor)
  {
    if settings.state == Ready && settings.idleTime < settings.cfg.getReadyDelay {
      settings.idleTime := settings.idleTime + dt;
    }
  }
}
