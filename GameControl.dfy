/**
  The program's module-level control globals, updated in place by the start
  and end routines, the key handler and the clot-hit branch of the frame loop.
  Every method is proved to leave the fields as the matching GameState function
  says and to keep the control invariant.
 */
module GameControl {
  import opened Options
  import opened GameState

  class Game {
    var showMenu: bool
    var endedGame: bool
    var soundOn: bool
    var virusCount: int
    var endScore: Option<int>
    var startMenuStarted: bool
    var scoreMenuStarted: bool
    var endMenuEnded: bool
    const hasSphere: bool
    /** Sound and force requests issued so far, oldest first. */
    var requests: seq<Effect>

    ghost function Model(): Controls
      reads this
    {
      Controls(showMenu, endedGame, soundOn, virusCount, endScore,
               startMenuStarted, scoreMenuStarted, endMenuEnded, hasSphere)
    }

    ghost predicate Valid()
      reads this
    {
      Inv(Model())
    }

    /** Page load: the flags are declared false, then startGame runs once. */
    constructor (hasSphere: bool, virusCount: int)
      ensures Valid()
      ensures Model() == Initial(hasSphere, virusCount)
      ensures showMenu && !endedGame && !soundOn
      ensures requests == []
    {
      this.hasSphere := hasSphere;
      this.virusCount := virusCount;
      showMenu, endedGame, soundOn := false, false, false;
      endScore := None;
      startMenuStarted, scoreMenuStarted, endMenuEnded := false, false, false;
      requests := [];
      new;
      StartGame();
    }

    /** startGame: toggle between the start menu and the score display. */
    method StartGame()
      modifies this
      ensures Model() == ToggleMenu(old(Model()))
      ensures showMenu == !old(showMenu)
      ensures requests == old(requests)
    {
      if !showMenu {
        startMenuStarted := true;
        scoreMenuStarted := false;
        showMenu := true;
      } else {
        startMenuStarted := false;
        scoreMenuStarted := true;
        showMenu := false;
      }
    }

    /** endGame, which every caller reaches only outside the menu. */
    method EndGame()
      requires Valid() && !showMenu
      modifies this
      ensures Valid()
      ensures Model() == EndRun(old(Model())).next
      ensures requests == old(requests) + EndRun(old(Model())).effects
      ensures endedGame && endScore == Some(old(virusCount)) && !showMenu
    {
      endMenuEnded := true;
      endScore := Some(virusCount);
      endedGame := true;
      scoreMenuStarted := false;
      if soundOn {
        requests := requests + [PlayIntro];
      }
    }

    /** handleImpactEvents: a key press, checked in the source's order with early returns. */
    method KeyDown(key: string, targetIsInput: bool)
      requires Valid()
      modifies this
      ensures Valid()
      ensures Model() == OnKey(old(Model()), key, targetIsInput).next
      ensures requests == old(requests) + OnKey(old(Model()), key, targetIsInput).effects
      ensures endedGame ==> !showMenu
    {
      if targetIsInput {
        return;
      }

      // turn sound on/off
      if key == "m" {
        soundOn := !soundOn;
        if showMenu && soundOn {
          requests := requests + [PlayIntro];
        }
        if !soundOn {
          requests := requests + [StopIfPlaying];
        }
      }

      // end game
      if key == "q" && !showMenu {
        EndGame();
        return;
      }

      // return to the start menu after the game ends
      if endedGame && key == "s" {
        showMenu := false;
        endedGame := false;
        virusCount := 0;
        endMenuEnded := false;
        StartGame();
        return;
      }

      // restart after the game ends
      if endedGame && key == " " {
        endedGame := false;
        endMenuEnded := false;
        virusCount := 0;
        scoreMenuStarted := true;
        requests := requests + [StopIfPlaying];
        return;
      }

      // Space leaves the start menu
      if showMenu && key == " " {
        startMenuStarted := false;
        showMenu := false;
        virusCount := 0;
        scoreMenuStarted := true;
        requests := requests + [StopIfPlaying];
        return;
      }

      // other keys are ignored until the game has started
      if showMenu || endedGame {
        return;
      }

      // only bound keys
      if !IsArrow(key) && key != "Enter" {
        return;
      }

      if key == "Enter" {
        return;
      }

      if hasSphere {
        requests := requests + [AddForce(KeyMap(key))];
      }
    }

    /** The frame loop's reaction to the player touching a clot. */
    method ClotHit()
      requires Valid()
      modifies this
      ensures Valid()
      ensures Model() == OnClotHit(old(Model())).next
      ensures requests == old(requests) + OnClotHit(old(Model())).effects
      ensures PlayCrash !in requests[|old(requests)|..]
    {
      if !showMenu {
        EndGame();
      }
      // the crash-sound check; endGame has just set endedGame, so it never fires
      var crash: seq<Effect> := [];
      if !showMenu && !endedGame && soundOn {
        crash := [PlayCrash];
      }
      requests := requests + crash;
    }
  }
}
