/**
  The game's control state as values: the menu/ended flags, the mute flag, the
  virus count (score), the end-screen score text and the three CSS classes the
  menus are shown with, together with one function per event that changes them.
  These functions are the specification the imperative handlers in GameControl
  are proved against; the lemmas here are stated over them.
 */
module GameState {
  import opened Options

  /** A force handed to the player sphere. */
  datatype Vec3 = Vec3(x: real, y: real, z: real)

  /** Requests the control logic issues to collaborators it does not own. */
  datatype Effect =
    | PlayIntro             // load the intro music and play it on a loop
    | PlayCrash             // load the crash sound and play it once
    | StopIfPlaying         // stop the current sound if one is playing
    | AddForce(force: Vec3) // push the player sphere

  /**
    showMenu, endedGame, soundOn and virusCount are the program's flags and
    score; endScore is the text of the end screen's score element;
    startMenuStarted, scoreMenuStarted and endMenuEnded say whether the start
    menu carries class "started", the score display class "started" and the end
    menu class "ended"; hasSphere says whether the scene has a player sphere.
   */
  datatype Controls = Controls(
    showMenu: bool,
    endedGame: bool,
    soundOn: bool,
    virusCount: int,
    endScore: Option<int>,
    startMenuStarted: bool,
    scoreMenuStarted: bool,
    endMenuEnded: bool,
    hasSphere: bool)

  /** The state after an event and the requests it issued, in order. */
  datatype Outcome = Outcome(next: Controls, effects: seq<Effect>)

  /**
    A key press, with whether the event's target is an <input> element (any
    input type; a <textarea> does not count), or a clot hit in the frame loop.
   */
  datatype Event = KeyDown(key: string, targetIsInput: bool) | ClotHit

  /** The three phases of the game: start menu, a game in progress, the end screen. */
  datatype Phase = Menu | Playing | Ended

  /** Magnitude of the force an arrow key applies. */
  const ForceStep: real := 0.02

  /** The control invariant: an ended game never shows the menu, and every CSS class mirrors the flags. */
  predicate Inv(c: Controls) {
    && (c.endedGame ==> !c.showMenu)
    && c.startMenuStarted == c.showMenu
    && c.scoreMenuStarted == (!c.showMenu && !c.endedGame)
    && c.endMenuEnded == c.endedGame
  }

  function PhaseOf(c: Controls): Phase {
    if c.showMenu then Menu else if c.endedGame then Ended else Playing
  }

  /**
    The intended three-phase game flow (menu, playing, ended), written over
    phases rather than flags so that the handlers can be checked against it:
    Space leaves the menu for a new game; "q" or a clot ends a running game;
    an ended game goes back to the menu on "s" and straight into a new game on
    Space. Every other event leaves the phase as it is, and keys aimed at an
    <input> element are ignored.
   */
  function FlowStep(p: Phase, e: Event): Phase {
    match e
    case ClotHit => if p == Playing then Ended else p
    case KeyDown(key, targetIsInput) =>
      if targetIsInput then p
      else
        match p
        case Menu => if key == " " then Playing else Menu
        case Playing => if key == "q" then Ended else Playing
        case Ended => if key == "s" then Menu else if key == " " then Playing else Ended
  }

  function FlowRun(p: Phase, evs: seq<Event>): Phase
    decreases |evs|
  {
    if evs == [] then p else FlowRun(FlowStep(p, evs[0]), evs[1..])
  }

  predicate IsArrow(key: string) {
    key == "ArrowUp" || key == "ArrowDown" || key == "ArrowLeft" || key == "ArrowRight"
  }

  /** The keys whose handling can change something. ("Enter" is bound but does nothing.) */
  predicate IsCommandKey(key: string) {
    key == "m" || key == "q" || key == "s" || key == " " || IsArrow(key)
  }

  /** The key-to-force table of the key handler. */
  function KeyMap(key: string): (v: Vec3)
    requires IsArrow(key)
    ensures v.z == 0.0 && (v.x == 0.0 || v.y == 0.0)
    ensures v.x * v.x + v.y * v.y == ForceStep * ForceStep
    ensures (v.y > 0.0 <==> key == "ArrowUp") && (v.y < 0.0 <==> key == "ArrowDown")
    ensures (v.x < 0.0 <==> key == "ArrowLeft") && (v.x > 0.0 <==> key == "ArrowRight")
  {
    if key == "ArrowUp" then Vec3(0.0, ForceStep, 0.0)
    else if key == "ArrowDown" then Vec3(0.0, -ForceStep, 0.0)
    else if key == "ArrowLeft" then Vec3(-ForceStep, 0.0, 0.0)
    else Vec3(ForceStep, 0.0, 0.0)
  }

  /** startGame: toggles between showing the start menu and showing the score display. */
  function ToggleMenu(c: Controls): (r: Controls)
    ensures r.showMenu != c.showMenu
    ensures r.startMenuStarted == r.showMenu && r.scoreMenuStarted == !r.showMenu
    ensures r.endedGame == c.endedGame && r.soundOn == c.soundOn && r.virusCount == c.virusCount
    ensures r.endScore == c.endScore && r.endMenuEnded == c.endMenuEnded && r.hasSphere == c.hasSphere
  {
    if !c.showMenu then
      c.(startMenuStarted := true, scoreMenuStarted := false, showMenu := true)
    else
      c.(startMenuStarted := false, scoreMenuStarted := true, showMenu := false)
  }

  /** The state at load time: all flags false, then startGame once. */
  function Initial(hasSphere: bool, virusCount: int): (c: Controls)
    ensures Inv(c) && PhaseOf(c) == Menu
    ensures !c.soundOn && c.virusCount == virusCount && c.endScore == None
    ensures c.hasSphere == hasSphere
  {
    ToggleMenu(Controls(false, false, false, virusCount, None, false, false, false, hasSphere))
  }

  /** endGame: show the end menu with the score, hide the score display, play the intro if sound is on. */
  function EndRun(c: Controls): (o: Outcome)
    ensures o.next.endedGame && o.next.endMenuEnded && !o.next.scoreMenuStarted
    ensures o.next.endScore == Some(c.virusCount)
    ensures o.next.showMenu == c.showMenu && o.next.soundOn == c.soundOn
    ensures o.next.virusCount == c.virusCount && o.next.startMenuStarted == c.startMenuStarted
    ensures o.next.hasSphere == c.hasSphere
    ensures (PlayIntro in o.effects) == c.soundOn && PlayCrash !in o.effects
    ensures forall e | e in o.effects :: e == PlayIntro
    ensures |o.effects| <= 1
  {
    var r := c.(endMenuEnded := true, endScore := Some(c.virusCount), endedGame := true,
                scoreMenuStarted := false);
    Outcome(r, if c.soundOn then [PlayIntro] else [])
  }

  /** The "m" key: flip the mute flag; start the intro in the menu, stop any sound when muting. */
  function ToggleSound(c: Controls): (o: Outcome)
    ensures o.next == c.(soundOn := !c.soundOn)
    ensures (PlayIntro in o.effects) <==> c.showMenu && !c.soundOn
    ensures (StopIfPlaying in o.effects) <==> c.soundOn
    ensures |o.effects| <= 1
    ensures PlayCrash !in o.effects && forall e | e in o.effects :: !e.AddForce?
  {
    var r := c.(soundOn := !c.soundOn);
    var play := if r.showMenu && r.soundOn then [PlayIntro] else [];
    var stop := if !r.soundOn then [StopIfPlaying] else [];
    Outcome(r, play + stop)
  }

  /** The key handler: the checks run in order and the first that applies returns. */
  function OnKey(c: Controls, key: string, targetIsInput: bool): (o: Outcome)
    ensures targetIsInput ==> o == Outcome(c, [])
    ensures Inv(c) ==> Inv(o.next)
    ensures Inv(c) ==> PhaseOf(o.next) == FlowStep(PhaseOf(c), KeyDown(key, targetIsInput))
    // the score is reset exactly when the game leaves the menu or the end screen
    ensures Inv(c) ==>
              o.next.virusCount == if PhaseOf(o.next) != PhaseOf(c) && PhaseOf(o.next) != Ended then 0 else c.virusCount
    ensures o.next.virusCount == c.virusCount || o.next.virusCount == 0
    ensures o.next.soundOn == (if key == "m" && !targetIsInput then !c.soundOn else c.soundOn)
    ensures o.next.hasSphere == c.hasSphere
    ensures !targetIsInput && key == "m" ==> o.next == c.(soundOn := !c.soundOn)
    // the requests each command key issues
    ensures !targetIsInput && key == "m" ==> o == ToggleSound(c)
    ensures !targetIsInput && key == "q" && !c.showMenu ==> o == EndRun(c)
    ensures Inv(c) && !targetIsInput && key == " " && PhaseOf(c) != Playing ==> o.effects == [StopIfPlaying]
    ensures Inv(c) && !targetIsInput && key == "s" && c.endedGame ==> o.effects == []
    ensures Inv(c) && !targetIsInput && (key == "q" || key == "s") && PhaseOf(c) == Menu ==> o == Outcome(c, [])
    // bound keys that the current phase ignores issue nothing
    ensures Inv(c) && !targetIsInput && (key == " " || key == "s") && PhaseOf(c) == Playing ==> o == Outcome(c, [])
    ensures !targetIsInput && IsArrow(key) && (PhaseOf(c) != Playing || !c.hasSphere) ==> o == Outcome(c, [])
    ensures !targetIsInput && key == "q" && PhaseOf(c) != Menu ==> o.next.endScore == Some(c.virusCount)
    ensures o.next.endScore != c.endScore ==> !targetIsInput && key == "q" && !c.showMenu
    ensures !targetIsInput && !IsCommandKey(key) ==> o == Outcome(c, [])
    ensures PlayCrash !in o.effects
    ensures forall e | e in o.effects && e.AddForce? ::
              !c.showMenu && !c.endedGame && IsArrow(key) && e.force == KeyMap(key)
    ensures !targetIsInput && !c.showMenu && !c.endedGame && IsArrow(key) && c.hasSphere ==>
              o.effects == [AddForce(KeyMap(key))]
  {
    if targetIsInput then Outcome(c, [])
    else
      // turn sound on/off; this check does not return
      var m := if key == "m" then ToggleSound(c) else Outcome(c, []);
      var c1 := m.next;
      if key == "q" && !c1.showMenu then
        var e := EndRun(c1);
        Outcome(e.next, m.effects + e.effects)
      else if c1.endedGame && key == "s" then
        // back to the start menu: clear the flags, then startGame shows the menu
        var c2 := c1.(showMenu := false, endedGame := false, virusCount := 0, endMenuEnded := false);
        Outcome(ToggleMenu(c2), m.effects)
      else if c1.endedGame && key == " " then
        var c2 := c1.(endedGame := false, endMenuEnded := false, virusCount := 0, scoreMenuStarted := true);
        Outcome(c2, m.effects + [StopIfPlaying])
      else if c1.showMenu && key == " " then
        var c2 := c1.(startMenuStarted := false, showMenu := false, virusCount := 0, scoreMenuStarted := true);
        Outcome(c2, m.effects + [StopIfPlaying])
      else if c1.showMenu || c1.endedGame then
        m
      else if !IsArrow(key) && key != "Enter" then
        m
      else if key == "Enter" then
        m
      else if c1.hasSphere then
        Outcome(c1, m.effects + [AddForce(KeyMap(key))])
      else
        m
  }

  /** The clot-hit branch of the frame loop: end the game unless in the menu, then the crash-sound check. */
  function OnClotHit(c: Controls): (o: Outcome)
    ensures Inv(c) ==> Inv(o.next)
    ensures Inv(c) ==> PhaseOf(o.next) == FlowStep(PhaseOf(c), ClotHit)
    ensures o.next.virusCount == c.virusCount && o.next.soundOn == c.soundOn
    ensures o.next.hasSphere == c.hasSphere
    ensures c.showMenu ==> o == Outcome(c, [])
    ensures !c.showMenu ==> o == EndRun(c)
    ensures !c.showMenu ==> o.next.endedGame && o.next.endScore == Some(c.virusCount)
    // the crash sound is never requested: endGame has already set endedGame
    ensures PlayCrash !in o.effects
    ensures forall e | e in o.effects :: !e.AddForce?
  {
    var e := if !c.showMenu then EndRun(c) else Outcome(c, []);
    if !e.next.showMenu && !e.next.endedGame && e.next.soundOn then
      Outcome(e.next, e.effects + [PlayCrash])
    else
      e
  }

  function Step(c: Controls, e: Event): (o: Outcome)
    ensures Inv(c) ==> Inv(o.next) && PhaseOf(o.next) == FlowStep(PhaseOf(c), e)
    ensures o.next.virusCount == c.virusCount || o.next.virusCount == 0
    ensures o.next.hasSphere == c.hasSphere
    ensures PlayCrash !in o.effects
  {
    match e
    case KeyDown(key, targetIsInput) => OnKey(c, key, targetIsInput)
    case ClotHit => OnClotHit(c)
  }

  /** A sequence of events, handled one after another; the requests are concatenated. */
  function Run(c: Controls, evs: seq<Event>): (o: Outcome)
    ensures Inv(c) ==> Inv(o.next)
    decreases |evs|
  {
    if evs == [] then Outcome(c, [])
    else
      var o1 := Step(c, evs[0]);
      var o2 := Run(o1.next, evs[1..]);
      Outcome(o2.next, o1.effects + o2.effects)
  }

  /** Over any sequence of events the handlers move through the phases as the intended game flow does. */
  lemma {:induction false} RunFollowsFlow(c: Controls, evs: seq<Event>)
    requires Inv(c)
    ensures PhaseOf(Run(c, evs).next) == FlowRun(PhaseOf(c), evs)
    decreases |evs|
  {
    if evs != [] {
      RunFollowsFlow(Step(c, evs[0]).next, evs[1..]);
    }
  }

  /** Without a Space key (not aimed at an <input>) the game never leaves the menu, and the score stays put. */
  lemma {:induction false} MenuNeedsSpace(c: Controls, evs: seq<Event>)
    requires Inv(c) && PhaseOf(c) == Menu
    requires KeyDown(" ", false) !in evs
    ensures PhaseOf(Run(c, evs).next) == Menu
    ensures Run(c, evs).next.virusCount == c.virusCount
    decreases |evs|
  {
    if evs != [] {
      var o1 := Step(c, evs[0]);
      assert PhaseOf(o1.next) == Menu;
      assert o1.next.virusCount == c.virusCount;
      assert KeyDown(" ", false) !in evs[1..] by {
        forall i | 0 <= i < |evs[1..]| ensures evs[1..][i] != KeyDown(" ", false) {
          assert evs[1..][i] == evs[i + 1];
        }
      }
      MenuNeedsSpace(o1.next, evs[1..]);
    }
  }

  /** The crash sound is never requested, whatever happens. */
  lemma {:induction false} NoCrashSound(c: Controls, evs: seq<Event>)
    ensures PlayCrash !in Run(c, evs).effects
    decreases |evs|
  {
    if evs != [] {
      NoCrashSound(Step(c, evs[0]).next, evs[1..]);
    }
  }

  /** Within the model the score only ever keeps its value or returns to zero. */
  lemma {:induction false} ScoreOnlyResets(c: Controls, evs: seq<Event>)
    ensures Run(c, evs).next.virusCount == c.virusCount || Run(c, evs).next.virusCount == 0
    decreases |evs|
  {
    if evs != [] {
      ScoreOnlyResets(Step(c, evs[0]).next, evs[1..]);
    }
  }

  /**
    Ending an ended game again (another "q" or clot hit) leaves the state as it
    was, but with sound on it requests the intro music once more.
   */
  lemma EndRunRepeats(c: Controls)
    ensures EndRun(EndRun(c).next).next == EndRun(c).next
    ensures EndRun(c).next.soundOn ==> EndRun(EndRun(c).next).effects == [PlayIntro]
  {
  }
}
