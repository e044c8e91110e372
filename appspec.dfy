/**
 * The controller of planetoids/app.py stated on values: the five game states,
 * the screen as a record (state, wave, title and message texts, the numbers
 * on the score and lives labels), and one call of Planetoids.update as a
 * function on it. The `if` blocks of update do not exclude each other, so a
 * frame can pass through several states; Tick chains them in source order.
 */
module AppSpec {
  import opened Consts
  import opened Wrappers
  import opened Geometry
  import opened Motion
  import opened WaveSpec

  /** STATE_INACTIVE, STATE_LOADING, STATE_ACTIVE, STATE_PAUSED and STATE_COMPLETE. */
  datatype State = Inactive | Loading | Active | Paused | Complete

  const TITLE: string := "Planetoids"
  const START_MESSAGE: string := "Press 'S' to Start"
  const CONTINUE_MESSAGE: string := "Press 'S' to Continue"
  const LOST_MESSAGE: string := "You lost!"
  const WON_MESSAGE: string := "You Won!"

  /** Planetoids.endMessage: a loss when no lives are left, a win otherwise. */
  function EndText(lives: int): (m: string)
    ensures m == LOST_MESSAGE <==> lives == 0
    ensures m == WON_MESSAGE <==> lives != 0
  {
    if lives == 0 then LOST_MESSAGE else WON_MESSAGE
  }

  /**
   * The state part of Planetoids.update, given the key 's' and the two
   * flags the wave reports after its update in the ACTIVE block.
   */
  function Step(st: State, s: bool, paused: bool, ended: bool): (r: State)
    ensures r != Loading
    ensures st == Complete ==> r == Complete
    ensures st == Inactive ==> (r == Inactive <==> !s)
    ensures st == Inactive && s ==> r == (if ended then Complete else Active)
    ensures st == Paused ==> r == (if s then Active else Paused)
    ensures st == Active && ended ==> r == Complete
    ensures st == Active && !ended ==> (r == Paused <==> paused && !s) && (r == Active <==> !paused || s)
  {
    var st1 := if st == Inactive && s then Loading else st;
    var st2 := if st1 == Loading then Active else st1;
    var st3 := if st2 == Active then (if ended then Complete else if paused then Paused else Active) else st2;
    if st3 == Paused && s then Active else st3
  }

  /**
   * The controller between two frames: its state, the wave (None before the
   * first game), the title and message labels (None when hidden), and the
   * numbers shown on the score and lives labels.
   */
  datatype Screen = Screen(
    state: State,
    wave: Option<WaveState>,
    title: Option<string>,
    message: Option<string>,
    shownScore: int,
    shownLives: int)

  /** Planetoids.start: the title screen, no wave yet. */
  function Begin(): (a: Screen)
    ensures Ok(a)
    ensures a.state == Inactive && a.wave.None?
  {
    Screen(Inactive, None, Some(TITLE), Some(START_MESSAGE), 0, SHIP_LIVES)
  }

  /** What holds of the controller between frames. */
  predicate Ok(a: Screen) {
    && a.state != Loading
    && (a.state == Inactive <==> a.wave.None?)
    && (a.state == Inactive ==> a.title == Some(TITLE) && a.message == Some(START_MESSAGE))
    && (a.state != Inactive ==> a.title.None?)
    && (a.wave.Some? ==> Inv(a.wave.value))
    && (a.wave.Some? ==> a.shownScore == a.wave.value.score && a.shownLives == a.wave.value.lives)
    && (a.state == Active ==> a.message.None? && !ShipDown(a.wave.value) && !Over(a.wave.value))
    && (a.state == Paused ==> a.message == Some(CONTINUE_MESSAGE) && ShipDown(a.wave.value) && !Over(a.wave.value))
    && (a.state == Complete ==> Over(a.wave.value) && a.message == Some(EndText(a.wave.value.lives)))
  }

  /** The INACTIVE block: 's' starts loading and hides the title screen. */
  function Wake(a: Screen, s: bool): Screen {
    if a.state == Inactive && s then a.(state := Loading, title := None, message := None) else a
  }

  /** The LOADING block: a new wave from the level data, then ACTIVE. */
  function Load(a: Screen, level: Level): Screen {
    if a.state == Loading then a.(wave := Some(Start(level)), state := Active) else a
  }

  /** The ACTIVE block: one wave frame, the labels follow the wave, then the pause and end checks. */
  function Play(a: Screen, keys: Keys): (r: Screen)
    requires a.state == Active ==> a.wave.Some? && Inv(a.wave.value)
  {
    if a.state != Active then a
    else
      var w := Frame(a.wave.value, keys);
      var st := if ShipDown(w) then Paused else a.state;
      var st' := if Over(w) then Complete else st;
      a.(wave := Some(w), shownScore := w.score, shownLives := w.lives, state := st')
  }

  /**
   * Wave.resetShip on a wave state: a new ship at the level's pose, at rest
   * and facing its angle; nothing else in the wave changes.
   */
  function Respawn(w: WaveState, level: Level): (r: WaveState)
    ensures r == w.(ship := r.ship) && r.ship.Some?
    ensures Facing(r.ship.value) && r.ship.value.velocity == Zero
    ensures r.ship.value.pos == level.ship.position && r.ship.value.angle == level.ship.angle
  {
    w.(ship := Some(ShipSpawn(level.ship)))
  }

  /** The PAUSED block: the continue prompt, and with 's' a new ship and ACTIVE again. */
  function Resume(a: Screen, level: Level, s: bool): Screen
    requires a.state == Paused ==> a.wave.Some?
  {
    if a.state != Paused then a
    else if s then a.(message := None, wave := Some(Respawn(a.wave.value, level)), state := Active)
    else a.(message := Some(CONTINUE_MESSAGE))
  }

  /** The COMPLETE block: the win or loss message. */
  function Finish(a: Screen): Screen
    requires a.state == Complete ==> a.wave.Some?
  {
    if a.state == Complete then a.(message := Some(EndText(a.wave.value.lives))) else a
  }

  /** Planetoids.update: the five blocks in source order, with `level` the loaded level data. */
  function Tick(a: Screen, level: Level, keys: Keys, s: bool): Screen
    requires Ok(a)
  {
    var a1 := Wake(a, s);
    var a2 := Load(a1, level);
    var a3 := Play(a2, keys);
    var a4 := Resume(a3, level, s);
    Finish(a4)
  }

  /** Every frame keeps the controller's invariant. */
  lemma TickKeepsOk(a: Screen, level: Level, keys: Keys, s: bool)
    requires Ok(a)
    ensures Ok(Tick(a, level, keys, s))
  {
    match a.state
    case Inactive =>
      if s {
        PlayKeepsOk(Load(Wake(a, s), level), level, keys, s);
      }
    case Active =>
      PlayKeepsOk(a, level, keys, s);
    case Paused =>
      if s {
        assert Inv(Respawn(a.wave.value, level));
      }
    case Complete =>
  }

  /** The ACTIVE block and the blocks after it end in a state that satisfies Ok. */
  lemma PlayKeepsOk(a: Screen, level: Level, keys: Keys, s: bool)
    requires a.state == Active && a.wave.Some? && Inv(a.wave.value)
    requires a.title.None? && a.message.None?
    ensures Ok(Finish(Resume(Play(a, keys), level, s)))
  {
    FramePreservesInv(a.wave.value, keys);
    var a3 := Play(a, keys);
    if a3.state == Paused && s {
      assert Inv(Respawn(a3.wave.value, level));
    }
  }

  /**
   * The state after a frame is Step applied to the flags of the wave frame
   * that the ACTIVE block runs (on the new wave when the frame starts one).
   */
  lemma TickState(a: Screen, level: Level, keys: Keys, s: bool)
    requires Ok(a)
    ensures a.state == Active || a.state == Paused || a.state == Complete ==> a.wave.Some?
    ensures
      var w := if a.state == Inactive then Start(level) else a.wave.value;
      var f := Frame(w, keys);
      Tick(a, level, keys, s).state == Step(a.state, s, ShipDown(f), Over(f))
  {
  }

  /** A finished game is a fixed point: no frame changes anything. */
  lemma CompleteIsFinal(a: Screen, level: Level, keys: Keys, s: bool)
    requires Ok(a) && a.state == Complete
    ensures Tick(a, level, keys, s) == a
  {
  }

  /** Without 's', the title screen and the pause screen stay exactly as they are. */
  lemma WaitingIsStill(a: Screen, level: Level, keys: Keys)
    requires Ok(a) && (a.state == Inactive || a.state == Paused)
    ensures Tick(a, level, keys, false) == a
  {
  }

  /** After an ACTIVE frame the labels show the wave's score and lives. */
  lemma LabelsFollowWave(a: Screen, level: Level, keys: Keys, s: bool)
    requires Ok(a)
    ensures Tick(a, level, keys, s).state != Inactive ==>
      Tick(a, level, keys, s).shownScore == Tick(a, level, keys, s).wave.value.score
      && Tick(a, level, keys, s).shownLives == Tick(a, level, keys, s).wave.value.lives
  {
    TickKeepsOk(a, level, keys, s);
  }

  /** 's' on the pause screen brings back the ship and changes nothing else in the wave. */
  lemma ContinueRespawns(a: Screen, level: Level, keys: Keys)
    requires Ok(a) && a.state == Paused
    ensures Tick(a, level, keys, true).state == Active
    ensures Tick(a, level, keys, true).wave == Some(Respawn(a.wave.value, level))
  {
  }
}
