/**
 * The `Game` of src/game/Game.js: the screen states, score, lives and level
 * progression, the edge-detected keys and the fixed-timestep frame loop.
 *
 * The world's callbacks arrive as the events of its tick and are handled in the
 * order the world raised them. The sounds asked for are kept in `sounds`;
 * rendering and the HUD are not part of this model.
 */
module Games {
  import opened Host
  import opened LevelLoader
  import opened Worlds
  import opened WorldObjects

  datatype GameState = Title | Playing | Paused | Win | GameOver

  /** `_stepMs`: 120 updates a second. */
  const StepMs: real := 1000.0 / 120.0
  /** `_maxFrameMs`: a frame counts for at most a twentieth of a second. */
  const MaxFrameMs: real := 1000.0 / 20.0
  const StartLives: int := 3

  /** The canvas size and the `Math` functions every world is built with. */
  datatype Screen = Screen(arenaW: real, arenaH: real, math: MathHost)

  /** A world built by the game always has an `onSfx` callback. */
  function WorldEnv(sc: Screen): Env
  {
    Env(sc.arenaW, sc.arenaH, true, sc.math)
  }

  /** Everything `_update` reads and changes, with the world as a value. */
  datatype Session = Session(
    state: GameState, score: int, lives: int, levelIndex: int, pressed: set<string>,
    world: Option<WorldState>, sounds: seq<string>, rng: Random)

  /** The level index names a level of the table, and a world, if any, is valid. */
  predicate SessionOk(s: Session)
  {
    0 <= s.levelIndex < |Levels| && (s.world.Some? ==> Valid(s.world.value))
  }

  /**
   * `_justPressed(code)`: true exactly when the key is down and was not down at
   * the last query; the remembered set then holds the key exactly when it is down.
   */
  function JustPressed(pressed: set<string>, input: Input, code: string): (r: (bool, set<string>))
    ensures r.0 <==> input.IsDown(code) && code !in pressed
    ensures r.1 == if input.IsDown(code) then pressed + {code} else pressed - {code}
  {
    var down := input.IsDown(code);
    if down && code !in pressed then (true, pressed + {code})
    else if !down && code in pressed then (false, pressed - {code})
    else (false, pressed)
  }

  /**
   * A key held down is reported once; it is reported again only after a query
   * has seen it released.
   */
  lemma HeldKeyFiresOnce(pressed: set<string>, held: Input, released: Input, code: string)
    requires held.IsDown(code) && !released.IsDown(code)
    ensures var first := JustPressed(pressed, held, code);
            var second := JustPressed(first.1, held, code);
            var after := JustPressed(second.1, released, code);
            && first.0 == (code !in pressed) && !second.0 && !after.0
            && JustPressed(after.1, held, code).0
  {
  }

  /** `_setState(next)`: "win" and "game_over" each play their sound. */
  function Enter(s: Session, next: GameState): (r: Session)
    ensures r.state == next && r == s.(state := next, sounds := r.sounds)
    ensures r.sounds == s.sounds + (if next == Win then ["win"] else if next == GameOver then ["game_over"] else [])
  {
    var cue := if next == Win then ["win"] else if next == GameOver then ["game_over"] else [];
    s.(state := next, sounds := s.sounds + cue)
  }

  /** `_resetRun()`: a fresh run without a world. */
  function NewRun(s: Session): (r: Session)
    ensures r == s.(score := 0, lives := StartLives, levelIndex := 0, world := None)
  {
    s.(score := 0, lives := StartLives, levelIndex := 0, world := None)
  }

  /** `_loadLevel(index)`: a new world for the level at `index`. */
  function WithLevel(s: Session, index: int, sc: Screen): (r: Session)
    requires 0 <= index < |Levels|
    ensures r == s.(levelIndex := index, world := Some(NewWorld(sc.arenaW, sc.arenaH, Levels[index])))
  {
    var level := GetLevel(index);
    assert level == Some(Levels[index]) by {
      assert index % 6 == index;
    }
    s.(levelIndex := index, world := Some(NewWorld(sc.arenaW, sc.arenaH, level.value)))
  }

  /**
   * The callbacks the game gives its world: `onScore` adds the points, `onWin`
   * enters the win state, `onSfx` plays the cue, and `onLifeLost` takes a life,
   * ending the game when none is left and otherwise serving a new ball.
   */
  function OnEvent(s: Session, e: Event): (r: Session)
    ensures SessionOk(s) ==> SessionOk(r)
    ensures r.state in {s.state, Win, GameOver}
    ensures r.levelIndex == s.levelIndex && r.pressed == s.pressed && r.rng == s.rng
  {
    match e
    case OnScore(n) => s.(score := s.score + n)
    case OnWin => Enter(s, Win)
    case OnSfx(name) => s.(sounds := s.sounds + [name])
    case OnLifeLost =>
      var s1 := s.(lives := s.lives - 1);
      if s1.lives <= 0 then Enter(s1, GameOver)
      else
        var served := match s1.world
          case None => None
          case Some(w) => Some(w.(balls := Serve(w.paddle)));
        s1.(sounds := s1.sounds + ["life_lost"], world := served)
  }

  /** The events of a tick, handled in order. */
  function OnEvents(s: Session, evs: seq<Event>): (r: Session)
    ensures SessionOk(s) ==> SessionOk(r)
    ensures r.state in {s.state, Win, GameOver}
    ensures r.levelIndex == s.levelIndex && r.pressed == s.pressed && r.rng == s.rng
  {
    if evs == [] then s else OnEvent(OnEvents(s, evs[..|evs| - 1]), evs[|evs| - 1])
  }

  /** The points the score events of a tick add up to. */
  function TotalScore(evs: seq<Event>): int
  {
    if evs == [] then 0
    else TotalScore(evs[..|evs| - 1]) + (match evs[|evs| - 1] case OnScore(n) => n case _ => 0)
  }

  /**
   * Scores and sound cues change nothing but the score, by their total, and the
   * sounds played: the screen state, lives and world stay as they are.
   */
  lemma {:induction false} RoutineEventsOnlyScore(s: Session, evs: seq<Event>)
    requires Routine(evs)
    ensures var r := OnEvents(s, evs);
            r.score == s.score + TotalScore(evs) && r.state == s.state && r.lives == s.lives && r.world == s.world
  {
    if evs != [] {
      var init := evs[..|evs| - 1];
      assert Routine(init) by {
        forall k | 0 <= k < |init|
          ensures init[k].OnScore? || init[k].OnSfx?
        {
          assert init[k] == evs[k];
        }
      }
      RoutineEventsOnlyScore(s, init);
    }
  }

  /**
   * Losing a life: one fewer, and at none left the game is over with its sound;
   * otherwise the "life_lost" sound plays and a new ball waits on the paddle.
   */
  lemma LifeLostRule(s: Session)
    ensures var r := OnEvent(s, OnLifeLost);
            && r.lives == s.lives - 1 && r.score == s.score
            && (s.lives - 1 <= 0 ==> r.state == GameOver && r.sounds == s.sounds + ["game_over"] && r.world == s.world)
            && (s.lives - 1 > 0 ==>
                  && r.state == s.state && r.sounds == s.sounds + ["life_lost"]
                  && (s.world.Some? ==> r.world == Some(s.world.value.(balls := Serve(s.world.value.paddle)))))
  {
  }

  /** The first part of `_update`: P toggles play and pause, then R returns to the title with a fresh run. */
  function Toggles(s: Session, input: Input): (r: Session)
    requires SessionOk(s)
    ensures SessionOk(r) && r.rng == s.rng
    ensures NoToggles(s, input) ==> r == s.(pressed := r.pressed)
  {
    var p := JustPressed(s.pressed, input, "KeyP");
    var s1 := s.(pressed := p.1);
    var s2 :=
      if p.0 && s1.state == Playing then Enter(s1, Paused)
      else if p.0 && s1.state == Paused then Enter(s1, Playing)
      else s1;
    var rk := JustPressed(s2.pressed, input, "KeyR");
    var s3 := s2.(pressed := rk.1);
    if rk.0 then Enter(NewRun(s3), Title) else s3
  }

  /** A new run at the first level, in play. */
  function Restart(s: Session, sc: Screen): (r: Session)
    ensures r == s.(state := Playing, score := 0, lives := StartLives, levelIndex := 0,
                    world := Some(NewWorld(sc.arenaW, sc.arenaH, Levels[0])))
  {
    Enter(WithLevel(NewRun(s), 0, sc), Playing)
  }

  /** The title screen: Space starts a run at the first level. */
  function TitleStep(s: Session, input: Input, sc: Screen): (r: Session)
    requires SessionOk(s)
    ensures SessionOk(r)
    ensures JustPressed(s.pressed, input, "Space").0 ==>
              && r.state == Playing && r.levelIndex == 0 && r.score == 0 && r.lives == StartLives
              && r.world == Some(NewWorld(sc.arenaW, sc.arenaH, Levels[0]))
    ensures !JustPressed(s.pressed, input, "Space").0 ==> r == s.(pressed := r.pressed)
  {
    var sp := JustPressed(s.pressed, input, "Space");
    var s5 := s.(pressed := sp.1);
    if sp.0 then Restart(s5, sc) else s5
  }

  /** Space on an end screen: a new run after a loss, else the next level, else a new run after the last one. */
  function Advance(s: Session, sc: Screen): (r: Session)
    requires SessionOk(s)
    ensures SessionOk(r) && r.state == Playing
    ensures s.state == GameOver || s.levelIndex + 1 == |Levels| ==>
              && r.levelIndex == 0 && r.score == 0 && r.lives == StartLives
              && r.world == Some(NewWorld(sc.arenaW, sc.arenaH, Levels[0]))
    ensures s.state != GameOver && s.levelIndex + 1 < |Levels| ==>
              && r.levelIndex == s.levelIndex + 1 && r.score == s.score && r.lives == s.lives
              && r.world == Some(NewWorld(sc.arenaW, sc.arenaH, Levels[s.levelIndex + 1]))
  {
    if s.state == GameOver then Restart(s, sc)
    else if s.levelIndex + 1 < GetLevelCount() then Enter(WithLevel(s, s.levelIndex + 1, sc), Playing)
    else Restart(s, sc)
  }

  /** The win and game-over screens wait for Space. */
  function EndStep(s: Session, input: Input, sc: Screen): (r: Session)
    requires SessionOk(s)
    ensures SessionOk(r)
    ensures JustPressed(s.pressed, input, "Space").0 ==> r.state == Playing
    ensures JustPressed(s.pressed, input, "Space").0 && s.state == GameOver ==>
              && r.levelIndex == 0 && r.score == 0 && r.lives == StartLives
              && r.world == Some(NewWorld(sc.arenaW, sc.arenaH, Levels[0]))
    ensures !JustPressed(s.pressed, input, "Space").0 ==> r == s.(pressed := r.pressed)
  {
    var sp := JustPressed(s.pressed, input, "Space");
    var s5 := s.(pressed := sp.1);
    if sp.0 then Advance(s5, sc) else s5
  }

  /** In play: the world's tick, then its callbacks in order. */
  function PlayStep(s: Session, dt: real, input: Input, sc: Screen): (r: Session)
    requires SessionOk(s)
    ensures SessionOk(r)
    ensures s.world.Some? ==> r.rng == Tick(s.world.value, WorldEnv(sc), dt, input, s.rng).rng
    ensures s.world.None? ==> r == s
    ensures r.state in {s.state, Win, GameOver}
  {
    match s.world
    case None => s
    case Some(w) =>
      var st := Tick(w, WorldEnv(sc), dt, input, s.rng);
      OnEvents(s.(world := Some(st.w), rng := st.rng), st.events)
  }

  /** `_update(dt)`: the toggles, then the screen the game is on. */
  function UpdateSession(s: Session, dt: real, input: Input, sc: Screen): (r: Session)
    requires SessionOk(s)
    ensures SessionOk(r)
  {
    var s4 := Toggles(s, input);
    match s4.state
    case Title => TitleStep(s4, input, sc)
    case Win => EndStep(s4, input, sc)
    case GameOver => EndStep(s4, input, sc)
    case Paused => s4
    case Playing => PlayStep(s4, dt, input, sc)
  }

  /** Neither P nor R is newly pressed. */
  predicate NoToggles(s: Session, input: Input)
  {
    !JustPressed(s.pressed, input, "KeyP").0 && !JustPressed(s.pressed, input, "KeyR").0
  }

  /** P pauses a game in play, and the world does not tick in that update. */
  lemma PauseStopsPlay(s: Session, dt: real, input: Input, sc: Screen)
    requires SessionOk(s) && s.state == Playing
    requires JustPressed(s.pressed, input, "KeyP").0 && !JustPressed(s.pressed, input, "KeyR").0
    ensures var r := UpdateSession(s, dt, input, sc);
            r.state == Paused && r.world == s.world && r.score == s.score && r.lives == s.lives
  {
    var p := JustPressed(s.pressed, input, "KeyP");
    assert "KeyR" in p.1 <==> "KeyR" in s.pressed;
    assert Toggles(s, input).state == Paused;
  }

  /** A paused game without P or R changes nothing but the remembered keys. */
  lemma PausedHolds(s: Session, dt: real, input: Input, sc: Screen)
    requires SessionOk(s) && s.state == Paused && NoToggles(s, input)
    ensures var r := UpdateSession(s, dt, input, sc);
            r == s.(pressed := r.pressed)
  {
  }

  /** P on a paused game resumes it, and the world ticks in that same update. */
  lemma PauseResumes(s: Session, dt: real, input: Input, sc: Screen)
    requires SessionOk(s) && s.state == Paused && s.world.Some?
    requires JustPressed(s.pressed, input, "KeyP").0 && !JustPressed(s.pressed, input, "KeyR").0
    ensures var r := UpdateSession(s, dt, input, sc);
            var st := Tick(s.world.value, WorldEnv(sc), dt, input, s.rng);
            var s4 := Toggles(s, input);
            && s4.state == Playing && s4.world == s.world
            && r == OnEvents(s4.(world := Some(st.w), rng := st.rng), st.events)
  {
    var p := JustPressed(s.pressed, input, "KeyP");
    assert "KeyR" in p.1 <==> "KeyR" in s.pressed;
    var s4 := Toggles(s, input);
    assert s4.state == Playing && s4.world == s.world && s4.rng == s.rng;
  }

  /** P toggles only between play and pause: on the title, win and game-over screens it leaves the state and the world. */
  lemma PauseIgnoredOnScreens(s: Session, input: Input)
    requires SessionOk(s) && s.state in {Title, Win, GameOver}
    requires !JustPressed(JustPressed(s.pressed, input, "KeyP").1, input, "KeyR").0
    ensures Toggles(s, input) == s.(pressed := Toggles(s, input).pressed)
  {
  }

  /** R always returns to the title screen with a fresh run and no world, unless Space also starts one. */
  lemma ResetRule(s: Session, dt: real, input: Input, sc: Screen)
    requires SessionOk(s)
    requires JustPressed(JustPressed(s.pressed, input, "KeyP").1, input, "KeyR").0
    ensures var r := UpdateSession(s, dt, input, sc);
            var sp := JustPressed(Toggles(s, input).pressed, input, "Space").0;
            && (!sp ==> r.state == Title && r.world == None && r.score == 0 && r.lives == StartLives && r.levelIndex == 0)
            && (sp ==>
                  && r.state == Playing && r.levelIndex == 0 && r.score == 0 && r.lives == StartLives
                  && r.world == Some(NewWorld(sc.arenaW, sc.arenaH, Levels[0])))
  {
    assert Toggles(s, input).state == Title;
  }

  /**
   * Space on the win screen moves to the next level keeping score and lives, or
   * after the last level starts a new run from the first.
   */
  lemma WinAdvances(s: Session, dt: real, input: Input, sc: Screen)
    requires SessionOk(s) && s.state == Win && NoToggles(s, input)
    requires input.IsDown("Space") && "Space" !in s.pressed
    ensures var r := UpdateSession(s, dt, input, sc);
            && r.state == Playing
            && (s.levelIndex + 1 < |Levels| ==>
                  r.levelIndex == s.levelIndex + 1 && r.score == s.score && r.lives == s.lives
                  && r.world == Some(NewWorld(sc.arenaW, sc.arenaH, Levels[s.levelIndex + 1])))
            && (s.levelIndex + 1 == |Levels| ==>
                  r.levelIndex == 0 && r.score == 0 && r.lives == StartLives
                  && r.world == Some(NewWorld(sc.arenaW, sc.arenaH, Levels[0])))
  {
    var s4 := Toggles(s, input);
    assert s4 == s.(pressed := s4.pressed);
    assert "Space" in s4.pressed <==> "Space" in s.pressed;
  }

  /**
   * Space on the game-over screen always starts a new run: in play at the first
   * level with a fresh score and lives, whatever level the lost run had reached.
   */
  lemma GameOverRestarts(s: Session, dt: real, input: Input, sc: Screen)
    requires SessionOk(s) && s.state == GameOver && NoToggles(s, input)
    requires input.IsDown("Space") && "Space" !in s.pressed
    ensures var r := UpdateSession(s, dt, input, sc);
            && r.state == Playing && r.levelIndex == 0 && r.score == 0 && r.lives == StartLives
            && r.world == Some(NewWorld(sc.arenaW, sc.arenaH, Levels[0]))
  {
    var s4 := Toggles(s, input);
    assert s4 == s.(pressed := s4.pressed);
    assert "Space" in s4.pressed <==> "Space" in s.pressed;
  }

  /**
   * Space on the title screen starts a run: in play at the first level with a
   * fresh score and lives and a new world for that level.
   */
  lemma TitleStarts(s: Session, dt: real, input: Input, sc: Screen)
    requires SessionOk(s) && s.state == Title && NoToggles(s, input)
    requires input.IsDown("Space") && "Space" !in s.pressed
    ensures var r := UpdateSession(s, dt, input, sc);
            && r.state == Playing && r.levelIndex == 0 && r.score == 0 && r.lives == StartLives
            && r.world == Some(NewWorld(sc.arenaW, sc.arenaH, Levels[0]))
  {
    var s4 := Toggles(s, input);
    assert s4 == s.(pressed := s4.pressed);
    assert "Space" in s4.pressed <==> "Space" in s.pressed;
  }

  /**
   * On the title, win and game-over screens nothing happens until Space is newly
   * pressed: the world does not tick and the score and lives stay.
   */
  lemma ScreensWaitForSpace(s: Session, dt: real, input: Input, sc: Screen)
    requires SessionOk(s) && s.state in {Title, Win, GameOver} && NoToggles(s, input)
    requires !input.IsDown("Space") || "Space" in s.pressed
    ensures var r := UpdateSession(s, dt, input, sc);
            r == s.(pressed := r.pressed)
  {
    var s4 := Toggles(s, input);
    assert s4 == s.(pressed := s4.pressed);
    assert "Space" in s4.pressed <==> "Space" in s.pressed;
  }

  /**
   * The events of a tick end play only through the last one: a win shows the win
   * screen; a life lost costs a life and, with lives to spare, serves a new ball
   * in play, while losing the last life ends the game with no new ball.
   */
  lemma LastEventDecides(s: Session, evs: seq<Event>)
    requires evs != [] && Routine(evs[..|evs| - 1]) && s.state == Playing
    ensures var r := OnEvents(s, evs);
            && (evs[|evs| - 1] == OnWin ==> r.state == Win && r.lives == s.lives && r.world == s.world)
            && (evs[|evs| - 1] == OnLifeLost ==> r.lives == s.lives - 1)
            && (evs[|evs| - 1] == OnLifeLost && s.lives > 1 ==>
                  && r.state == Playing
                  && (s.world.Some? ==> r.world == Some(s.world.value.(balls := Serve(s.world.value.paddle)))))
            && (evs[|evs| - 1] == OnLifeLost && s.lives <= 1 ==> r.state == GameOver && r.world == s.world)
  {
    RoutineEventsOnlyScore(s, evs[..|evs| - 1]);
  }

  /** In play with no key toggling, the update is the world's tick followed by its callbacks. */
  lemma PlayIsTick(s: Session, dt: real, input: Input, sc: Screen)
    requires SessionOk(s) && s.state == Playing && s.world.Some? && NoToggles(s, input)
    ensures var st := Tick(s.world.value, WorldEnv(sc), dt, input, s.rng);
            var s4 := Toggles(s, input);
            && s4 == s.(pressed := s4.pressed)
            && UpdateSession(s, dt, input, sc) == OnEvents(s4.(world := Some(st.w), rng := st.rng), st.events)
  {
  }

  /**
   * In play, with no key toggling, the world's end-of-tick outcome decides the
   * screen: a win shows the win screen; a lost ball costs a life and serves a new
   * ball, or ends the game without one when it was the last life; and otherwise
   * the world moves on and the score grows by the points of the tick.
   */
  lemma PlayingTicks(s: Session, dt: real, input: Input, sc: Screen)
    requires SessionOk(s) && s.state == Playing && s.world.Some? && NoToggles(s, input)
    ensures var r := UpdateSession(s, dt, input, sc);
            var st := Tick(s.world.value, WorldEnv(sc), dt, input, s.rng);
            && r.rng == st.rng
            && (OnWin in st.events ==> r.state == Win && r.lives == s.lives)
            && (OnLifeLost in st.events ==> r.lives == s.lives - 1)
            && (OnLifeLost in st.events && s.lives > 1 ==>
                  r.state == Playing && r.world == Some(st.w.(balls := Serve(st.w.paddle))))
            && (OnLifeLost in st.events && s.lives <= 1 ==> r.state == GameOver && r.world == Some(st.w))
            && (OnWin !in st.events && OnLifeLost !in st.events ==>
                  r.state == Playing && r.lives == s.lives && r.world == Some(st.w) && r.score == s.score + TotalScore(st.events))
  {
    var st := Tick(s.world.value, WorldEnv(sc), dt, input, s.rng);
    PlayIsTick(s, dt, input, sc);
    TickOutcome(s.world.value, WorldEnv(sc), dt, input, s.rng);
    var s4 := Toggles(s, input);
    EventsDecide(s4.(world := Some(st.w), rng := st.rng), st.events);
  }

  /**
   * Callbacks for a tick's events, when only scores and sounds come before a
   * final win or life lost: the final event decides the screen, and with neither
   * the score grows by the points of the tick and nothing else moves.
   */
  lemma EventsDecide(s: Session, evs: seq<Event>)
    requires s.state == Playing
    requires !(OnLifeLost in evs && OnWin in evs)
    requires OnLifeLost in evs || OnWin in evs ==> |evs| > 0 && Routine(evs[..|evs| - 1])
    requires OnLifeLost !in evs && OnWin !in evs ==> Routine(evs)
    ensures var r := OnEvents(s, evs);
            && r.rng == s.rng
            && (OnWin in evs ==> r.state == Win && r.lives == s.lives)
            && (OnLifeLost in evs ==> r.lives == s.lives - 1)
            && (OnLifeLost in evs && s.lives > 1 ==>
                  && r.state == Playing
                  && (s.world.Some? ==> r.world == Some(s.world.value.(balls := Serve(s.world.value.paddle)))))
            && (OnLifeLost in evs && s.lives <= 1 ==> r.state == GameOver && r.world == s.world)
            && (OnWin !in evs && OnLifeLost !in evs ==>
                  r.state == Playing && r.lives == s.lives && r.world == s.world && r.score == s.score + TotalScore(evs))
  {
    if OnWin in evs || OnLifeLost in evs {
      var last := evs[|evs| - 1];
      assert last == OnWin || last == OnLifeLost by {
        var k :| 0 <= k < |evs| && (evs[k] == OnWin || evs[k] == OnLifeLost);
      }
      LastEventDecides(s, evs);
    } else {
      RoutineEventsOnlyScore(s, evs);
    }
  }

  /** The session after n fixed steps. */
  function RunSteps(s: Session, n: nat, dt: real, input: Input, sc: Screen): (r: Session)
    requires SessionOk(s)
    ensures SessionOk(r)
  {
    if n == 0 then s else UpdateSession(RunSteps(s, n - 1, dt, input, sc), dt, input, sc)
  }

  /** The milliseconds a frame adds: the time since the last frame (none on the first), capped. */
  function FrameDelta(lastTs: Option<real>, ts: real): (d: real)
    ensures d <= MaxFrameMs
    ensures lastTs.None? ==> d == 0.0
  {
    var since := match lastTs case None => 0.0 case Some(t) => ts - t;
    if since > MaxFrameMs then MaxFrameMs else since
  }

  /**
   * The frame cap at work: a frame that starts with less than one step banked runs
   * at most six steps, however long it took.
   */
  lemma AtMostSixSteps(accum: real, delta: real, steps: nat)
    requires 0.0 <= accum < StepMs && delta <= MaxFrameMs
    requires (steps as real) * StepMs <= accum + delta
    ensures steps <= 6
  {
  }

  /** Each session of the trace is the update of the one before. */
  ghost predicate Trace(trace: seq<Session>, dt: real, input: Input, sc: Screen)
  {
    forall i :: 0 <= i < |trace| - 1 ==> SessionOk(trace[i]) && trace[i + 1] == UpdateSession(trace[i], dt, input, sc)
  }

  /** A trace of n updates ends in the session n fixed steps reach. */
  lemma {:induction false} TraceIsRun(trace: seq<Session>, dt: real, input: Input, sc: Screen)
    requires |trace| > 0 && SessionOk(trace[0]) && Trace(trace, dt, input, sc)
    ensures trace[|trace| - 1] == RunSteps(trace[0], |trace| - 1, dt, input, sc)
  {
    if |trace| > 1 {
      var init := trace[..|trace| - 1];
      assert Trace(init, dt, input, sc) by {
        forall i | 0 <= i < |init| - 1
          ensures SessionOk(init[i]) && init[i + 1] == UpdateSession(init[i], dt, input, sc)
        {
          assert init[i] == trace[i] && init[i + 1] == trace[i + 1];
        }
      }
      TraceIsRun(init, dt, input, sc);
      assert trace[|trace| - 1] == UpdateSession(trace[|trace| - 2], dt, input, sc);
    }
  }

  class Game {
    const arenaW: real
    const arenaH: real
    const math: MathHost
    var state: GameState
    var score: int
    var lives: int
    var levelIndex: int
    var accum: real
    var lastTs: Option<real>
    var pressed: set<string>
    var running: bool
    var world: World?
    var sounds: seq<string>
    var rng: Random

    function Area(): Screen
    {
      Screen(arenaW, arenaH, math)
    }

    /** The frame clock, which only `start` and `_frame` change. */
    function Timing(): (real, Option<real>, bool)
      reads this
    {
      (accum, lastTs, running)
    }

    /** The world and its paddle, when there is a world. */
    function Objects(): set<object>
      reads this`world
    {
      if world != null then {world, world.paddle} else {}
    }

    function Model(): Session
      reads this`state, this`score, this`lives, this`levelIndex, this`pressed, this`world, this`sounds, this`rng
      reads Objects()
    {
      Session(state, score, lives, levelIndex, pressed,
              if world != null then Some(world.State()) else None, sounds, rng)
    }

    /** The level index is in the table; a world is valid and was built for this screen. */
    ghost predicate Inv()
      reads this`state, this`score, this`lives, this`levelIndex, this`pressed, this`world, this`sounds, this`rng
      reads Objects()
    {
      && SessionOk(Model())
      && (world != null ==> world.Surroundings() == WorldEnv(Area()))
    }

    constructor (arenaW0: real, arenaH0: real, math0: MathHost, rng0: Random)
      ensures Model() == Session(Title, 0, StartLives, 0, {}, None, [], rng0)
      ensures Area() == Screen(arenaW0, arenaH0, math0)
      ensures accum == 0.0 && lastTs == None && !running
      ensures Inv()
    {
      arenaW, arenaH, math := arenaW0, arenaH0, math0;
      state := Title;
      score := 0;
      lives := StartLives;
      levelIndex := 0;
      accum := 0.0;
      lastTs := None;
      pressed := {};
      running := false;
      world := null;
      sounds := [];
      rng := rng0;
    }

    /** `start()`: the frame loop runs from now on. */
    method Start()
      modifies this
      ensures running && Model() == old(Model()) && accum == old(accum) && lastTs == old(lastTs)
    {
      if running {
        return;
      }
      running := true;
    }

    /**
     * `_frame(ts)`: the elapsed time, capped, is banked, and as many fixed steps run
     * as it pays for; what is left stays banked for the next frame.
     */
    method Frame(ts: real, input: Input) returns (steps: nat, ghost trace: seq<Session>)
      requires Inv()
      modifies this, Objects()
      ensures Inv() && running == old(running)
      ensures |trace| == steps + 1 && trace[0] == old(Model()) && trace[steps] == Model()
      ensures Trace(trace, StepMs / 1000.0, input, Area())
      ensures !old(running) ==> steps == 0 && accum == old(accum) && lastTs == old(lastTs)
      ensures old(running) ==> lastTs == Some(ts)
      ensures old(running) ==>
                var banked := old(accum) + FrameDelta(old(lastTs), ts);
                && accum == banked - (steps as real) * StepMs && accum < StepMs
                && (banked >= 0.0 ==> accum >= 0.0)
      ensures old(running) && 0.0 <= old(accum) < StepMs ==> steps <= 6
    {
      steps, trace := 0, [Model()];
      if !running {
        return;
      }
      var frameMs := Bank(ts);
      steps, trace := CatchUp(input);
      if 0.0 <= old(accum) < StepMs && old(accum) + frameMs >= 0.0 {
        AtMostSixSteps(old(accum), frameMs, steps);
      }
    }

    /** The head of `_frame`: the time since the last frame, capped, is added to the bank. */
    method Bank(ts: real) returns (frameMs: real)
      modifies this`lastTs, this`accum
      ensures frameMs == FrameDelta(old(lastTs), ts)
      ensures lastTs == Some(ts) && accum == old(accum) + frameMs
    {
      if lastTs.None? {
        lastTs := Some(ts);
      }
      frameMs := ts - lastTs.value;
      lastTs := Some(ts);
      if frameMs > MaxFrameMs {
        frameMs := MaxFrameMs;
      }
      accum := accum + frameMs;
    }

    /** The loop of `_frame`: one fixed step for every step's worth of banked time. */
    method CatchUp(input: Input) returns (steps: nat, ghost trace: seq<Session>)
      requires Inv()
      modifies this, Objects()
      ensures Inv() && lastTs == old(lastTs) && running == old(running)
      ensures accum == old(accum) - (steps as real) * StepMs && accum < StepMs
      ensures old(accum) >= 0.0 ==> accum >= 0.0
      ensures old(accum) < StepMs ==> steps == 0
      ensures |trace| == steps + 1 && trace[0] == old(Model()) && trace[steps] == Model()
      ensures Trace(trace, StepMs / 1000.0, input, Area())
    {
      steps := 0;
      trace := [Model()];
      while accum >= StepMs
        invariant Inv() && lastTs == old(lastTs) && running == old(running)
        invariant accum == old(accum) - (steps as real) * StepMs
        invariant old(accum) >= 0.0 ==> accum >= 0.0
        invariant steps > 0 ==> old(accum) >= StepMs
        invariant |trace| == steps + 1 && trace[0] == old(Model()) && trace[steps] == Model()
        invariant Trace(trace, StepMs / 1000.0, input, Area())
        invariant world != null ==> world == old(world) || (fresh(world) && fresh(world.paddle))
        decreases accum.Floor
      {
        ghost var before := Model();
        FixedStep(input);
        assert Trace(trace + [Model()], StepMs / 1000.0, input, Area()) by {
          forall i | 0 <= i < |trace|
            ensures SessionOk((trace + [Model()])[i])
            ensures (trace + [Model()])[i + 1] == UpdateSession((trace + [Model()])[i], StepMs / 1000.0, input, Area())
          {
            if i < |trace| - 1 {
              assert (trace + [Model()])[i] == trace[i] && (trace + [Model()])[i + 1] == trace[i + 1];
            }
          }
        }
        trace := trace + [Model()];
        steps := steps + 1;
      }
    }

    /** One pass of the loop of `_frame`: an update of one step's length, paid from the bank. */
    method FixedStep(input: Input)
      requires Inv()
      modifies this, Objects()
      ensures Inv() && Model() == UpdateSession(old(Model()), StepMs / 1000.0, input, Area())
      ensures accum == old(accum) - StepMs && lastTs == old(lastTs) && running == old(running)
      ensures world != null ==> world == old(world) || (fresh(world) && fresh(world.paddle))
    {
      Update(StepMs / 1000.0, input);
      accum := accum - StepMs;
    }

    /** `_justPressed(code)`. */
    method JustPressedKey(code: string, input: Input) returns (r: bool)
      modifies this
      ensures (r, pressed) == JustPressed(old(pressed), input, code)
      ensures Model() == old(Model()).(pressed := pressed)
      ensures world == old(world) && Timing() == old(Timing())
    {
      var down := input.IsDown(code);
      if down && code !in pressed {
        pressed := pressed + {code};
        return true;
      }
      if !down && code in pressed {
        pressed := pressed - {code};
      }
      return false;
    }

    /** `_setState(next)`. */
    method SetState(next: GameState)
      modifies this
      ensures Model() == Enter(old(Model()), next)
      ensures world == old(world) && Timing() == old(Timing())
    {
      state := next;
      if next == Win {
        sounds := sounds + ["win"];
      } else if next == GameOver {
        sounds := sounds + ["game_over"];
      }
    }

    /** `_resetRun()`. */
    method ResetRun()
      modifies this
      ensures Model() == NewRun(old(Model()))
      ensures world == null && Timing() == old(Timing())
    {
      score := 0;
      lives := StartLives;
      levelIndex := 0;
      world := null;
    }

    /** `_loadLevel(index)`: a new world, with the callbacks below. */
    method LoadLevel(index: int)
      requires 0 <= index < |Levels|
      modifies this
      ensures Model() == WithLevel(old(Model()), index, Area())
      ensures fresh(world) && fresh(world.paddle) && world.Surroundings() == WorldEnv(Area())
      ensures Timing() == old(Timing())
    {
      levelIndex := index;
      var level := GetLevel(index);
      world := new World(arenaW, arenaH, level.value, true, math, rng);
    }

    /** The world's callbacks, in the order it raised them. */
    method Deliver(evs: seq<Event>)
      requires Inv()
      modifies this, Objects()
      ensures Inv() && world == old(world) && Timing() == old(Timing())
      ensures Model() == OnEvents(old(Model()), evs)
    {
      var k := 0;
      while k < |evs|
        invariant 0 <= k <= |evs|
        invariant Inv() && world == old(world) && Timing() == old(Timing())
        invariant Model() == OnEvents(old(Model()), evs[..k])
      {
        assert evs[..k + 1][..k] == evs[..k];
        OnCallback(evs[k]);
        k := k + 1;
      }
      assert evs[..k] == evs;
    }

    /** `onScore`, `onWin`, `onLifeLost` and `onSfx` as `_loadLevel` defines them. */
    method OnCallback(e: Event)
      requires Inv()
      modifies this, Objects()
      ensures Inv() && world == old(world) && Timing() == old(Timing())
      ensures Model() == OnEvent(old(Model()), e)
    {
      match e
      case OnScore(n) =>
        score := score + n;
      case OnWin =>
        SetState(Win);
      case OnSfx(name) =>
        sounds := sounds + [name];
      case OnLifeLost =>
        lives := lives - 1;
        if lives <= 0 {
          SetState(GameOver);
          return;
        }
        sounds := sounds + ["life_lost"];
        if world != null {
          world.ResetServe();
        }
    }

    /** `_update(dt)`. */
    method Update(dt: real, input: Input)
      requires Inv()
      modifies this, Objects()
      ensures Inv() && Timing() == old(Timing())
      ensures Model() == UpdateSession(old(Model()), dt, input, Area())
      ensures world != null ==> world == old(world) || (fresh(world) && fresh(world.paddle))
    {
      Toggle(input);
      match state
      case Title =>
        TitleScreen(input);
      case Win =>
        EndScreen(input);
      case GameOver =>
        EndScreen(input);
      case Paused =>
      case Playing =>
        Play(dt, input);
    }

    /** The P and R keys at the head of `_update`. */
    method Toggle(input: Input)
      requires Inv()
      modifies this
      ensures Inv() && Timing() == old(Timing())
      ensures Model() == Toggles(old(Model()), input)
      ensures world == old(world) || world == null
    {
      var p := JustPressedKey("KeyP", input);
      if p {
        if state == Playing {
          SetState(Paused);
        } else if state == Paused {
          SetState(Playing);
        }
      }
      var r := JustPressedKey("KeyR", input);
      if r {
        ResetRun();
        SetState(Title);
      }
    }

    /** The title screen waits for Space. */
    method TitleScreen(input: Input)
      requires Inv()
      modifies this
      ensures Inv() && Timing() == old(Timing())
      ensures Model() == TitleStep(old(Model()), input, Area())
      ensures world == old(world) || (fresh(world) && fresh(world.paddle))
    {
      var space := JustPressedKey("Space", input);
      if space {
        RestartRun();
      }
    }

    /** `_resetRun()`, `_loadLevel(0)` and play, as Space does on the title and end screens. */
    method RestartRun()
      requires Inv()
      modifies this
      ensures Inv() && Timing() == old(Timing())
      ensures Model() == Restart(old(Model()), Area())
      ensures fresh(world) && fresh(world.paddle)
    {
      ResetRun();
      LoadLevel(0);
      SetState(Playing);
    }

    /** The win and game-over screens wait for Space. */
    method EndScreen(input: Input)
      requires Inv()
      modifies this
      ensures Inv() && Timing() == old(Timing())
      ensures Model() == EndStep(old(Model()), input, Area())
      ensures world == old(world) || (fresh(world) && fresh(world.paddle))
    {
      var space := JustPressedKey("Space", input);
      if !space {
        return;
      }
      if state == GameOver {
        RestartRun();
        return;
      }
      NextLevel();
    }

    /** Space on the win screen: the next level, or a new run after the last one. */
    method NextLevel()
      requires Inv() && state != GameOver
      modifies this
      ensures Inv() && Timing() == old(Timing())
      ensures Model() == Advance(old(Model()), Area())
      ensures fresh(world) && fresh(world.paddle)
    {
      var next := levelIndex + 1;
      if next < GetLevelCount() {
        PlayLevel(next);
      } else {
        RestartRun();
      }
    }

    /** `_loadLevel(index)` followed by `_setState("playing")`. */
    method PlayLevel(index: int)
      requires Inv() && 0 <= index < |Levels|
      modifies this
      ensures Inv() && Timing() == old(Timing())
      ensures Model() == Enter(WithLevel(old(Model()), index, Area()), Playing)
      ensures fresh(world) && fresh(world.paddle)
    {
      LoadLevel(index);
      SetState(Playing);
    }

    /** In play the world ticks and its callbacks run. */
    method Play(dt: real, input: Input)
      requires Inv()
      modifies this, Objects()
      ensures Inv() && Timing() == old(Timing()) && world == old(world)
      ensures Model() == PlayStep(old(Model()), dt, input, Area())
    {
      if world != null {
        ghost var st := Tick(world.State(), WorldEnv(Area()), dt, input, rng);
        ghost var ticked := Model().(world := Some(st.w), rng := st.rng);
        rng := world.Update(dt, input, rng);
        assert world.State() == st.w && world.events == st.events && rng == st.rng;
        assert Model() == ticked;
        Deliver(world.events);
      }
    }
  }
}
