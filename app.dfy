/**
 * The Planetoids controller class of planetoids/app.py. Its fields are
 * updated in place by the chained `if` blocks of Update; the wave is a
 * Waves.Wave object, created when a game starts. Update is proved to change
 * the controller exactly as AppSpec.Tick says, so the properties proved
 * there hold of the object.
 */
module App {
  import opened Consts
  import opened Wrappers
  import opened WaveSpec
  import opened Waves
  import opened AppSpec

  class Planetoids {
    /** The level data that every new game loads. */
    const data: Level
    var state: State
    var wave: Wave?
    var title: Option<string>
    var message: Option<string>
    /** The numbers on the score and lives labels. */
    var shownScore: int
    var shownLives: int

    function View(): Screen
      reads this, wave, if wave == null then null else wave.ship
    {
      Screen(state, if wave == null then None else Some(wave.View()), title, message, shownScore, shownLives)
    }

    ghost predicate Valid()
      reads this, wave, if wave == null then null else wave.ship
    {
      && Ok(View())
      && (wave != null ==> wave.level == data && wave.Valid())
    }

    /** Planetoids.start. */
    constructor (data: Level)
      ensures Valid()
      ensures View() == Begin()
    {
      this.data := data;
      title := Some(TITLE);
      message := Some(START_MESSAGE);
      state := Inactive;
      wave := null;
      shownScore := 0;
      shownLives := SHIP_LIVES;
    }

    /** Planetoids.update, with `keys` the keys the wave reads and `s` the key 's'. */
    method Update(keys: Keys, s: bool)
      requires Valid()
      modifies this, wave, if wave == null then null else wave.ship
      ensures Valid()
      ensures View() == Tick(old(View()), data, keys, s)
    {
      TickKeepsOk(View(), data, keys, s);
      StartGame(s);
      LoadWave();
      PlayOn(keys, s);
    }

    /** The INACTIVE block: 's' hides the title screen and starts loading. */
    method StartGame(s: bool)
      modifies this
      ensures wave == old(wave)
      ensures View() == Wake(old(View()), s)
    {
      if state == Inactive && s {
        state := Loading;
        title := None;
        message := None;
      }
    }

    /** The LOADING block: a new wave from the level data, then ACTIVE. */
    method LoadWave()
      modifies this
      ensures old(state) != Loading ==> wave == old(wave)
      ensures old(state) == Loading ==> fresh(wave) && fresh(wave.ship) && wave.level == data && wave.Valid()
      ensures View() == Load(old(View()), data)
    {
      if state == Loading {
        wave := new Wave(data);
        state := Active;
      }
    }

    /** The ACTIVE, PAUSED and COMPLETE blocks, once the wave exists or the game has not started. */
    method PlayOn(keys: Keys, s: bool)
      requires state != Loading && (state == Inactive <==> wave == null)
      requires wave != null ==> wave.level == data && wave.Valid()
      requires state == Paused ==> wave.lives != 0
      modifies this, wave, if wave == null then null else wave.ship
      ensures wave == old(wave) && (wave != null ==> wave.Valid())
      ensures View() == Finish(Resume(Play(old(View()), keys), data, s))
    {
      ghost var a := View();
      if state == Active {
        PlayWave(keys);
      }
      ghost var a3 := View();
      assert a3 == Play(a, keys);
      if state == Paused {
        ContinuePrompt(s);
      }
      ghost var a4 := View();
      assert a4 == Resume(a3, data, s);
      if state == Complete {
        ShowResult();
      }
    }

    /** The ACTIVE block: one wave frame, then the labels and the pause and end checks. */
    method PlayWave(keys: Keys)
      requires wave != null && wave.level == data && wave.Valid() && state == Active
      modifies this, wave, wave.ship
      ensures wave == old(wave) && wave.level == data && wave.Valid()
      ensures View() == Play(old(View()), keys)
    {
      wave.Update(keys);
      CheckWave();
    }

    /** The labels follow the wave, then pauseCheck and endCheck pick the next state. */
    method CheckWave()
      requires wave != null && wave.Valid()
      modifies this
      ensures wave == old(wave)
      ensures shownScore == wave.score && shownLives == wave.lives
      ensures state == (if Over(wave.View()) then Complete else if ShipDown(wave.View()) then Paused else old(state))
      ensures title == old(title) && message == old(message)
    {
      shownScore := wave.GetScore();
      shownLives := wave.GetLives();
      if wave.PauseCheck() {
        state := Paused;
      }
      if wave.EndCheck() {
        state := Complete;
      }
    }

    /** The PAUSED block: the continue prompt, and with 's' a new ship and ACTIVE again. */
    method ContinuePrompt(s: bool)
      requires wave != null && wave.level == data && wave.Valid() && state == Paused && wave.lives != 0
      modifies this, wave
      ensures wave == old(wave) && wave.Valid()
      ensures View() == Resume(old(View()), data, s)
    {
      message := Some(CONTINUE_MESSAGE);
      if s {
        message := None;
        wave.ResetShip();
        state := Active;
      }
    }

    /** The COMPLETE block: the message label is cleared, then set by endMessage. */
    method ShowResult()
      requires wave != null && state == Complete
      modifies this
      ensures wave == old(wave)
      ensures View() == Finish(old(View()))
    {
      message := None;
      EndMessage();
    }

    /** Planetoids.endMessage: the win or loss message, by the wave's lives. */
    method EndMessage()
      requires wave != null
      modifies this
      ensures wave == old(wave) && message == Some(EndText(wave.lives))
      ensures state == old(state) && title == old(title)
      ensures shownScore == old(shownScore) && shownLives == old(shownLives)
    {
      if wave.lives == 0 {
        message := Some(LOST_MESSAGE);
      } else {
        message := Some(WON_MESSAGE);
      }
    }
  }
}
