/** The game shell (app/page.tsx): which screen is shown, the logged-in
    user, the chosen level, the last final score and the saved progress. At
    the end of a run it raises the level's high score and unlocks vehicles
    at fixed score thresholds. */
module App {
  import opened Types
  import Vehicles

  /** Final scores at which vehicle 1 and vehicle 2 of the played level unlock. */
  const FIRST_UNLOCK_SCORE: int := 20
  const SECOND_UNLOCK_SCORE: int := 50

  function Max(a: int, b: int): int
  {
    if a < b then b else a
  }

  /** Adds `id` to an unlock list when it was `earned` and is not there yet. */
  function Unlock(list: seq<int>, id: int, earned: bool): (r: seq<int>)
    ensures forall x :: x in r <==> x in list || (earned && x == id)
    ensures |list| <= |r| && r[..|list|] == list
    ensures NoDuplicates(list) ==> NoDuplicates(r)
  {
    if earned && id !in list then list + [id] else list
  }

  /** The unlock list after a run with `finalScore` on the level it belongs to. */
  function UnlockForScore(list: seq<int>, finalScore: int): (r: seq<int>)
    ensures forall x :: x in r <==>
      x in list || (x == 1 && finalScore >= FIRST_UNLOCK_SCORE) || (x == 2 && finalScore >= SECOND_UNLOCK_SCORE)
    ensures |list| <= |r| && r[..|list|] == list
    ensures NoDuplicates(list) ==> NoDuplicates(r)
  {
    Unlock(Unlock(list, 1, finalScore >= FIRST_UNLOCK_SCORE), 2, finalScore >= SECOND_UNLOCK_SCORE)
  }

  /** The two unlock checks of `handleGameOver` on one level's list: each
      threshold reached pushes its vehicle id unless it is already there. */
  method UnlockVehicles(list: seq<int>, finalScore: int) returns (r: seq<int>)
    ensures r == UnlockForScore(list, finalScore)
  {
    r := list;
    if finalScore >= FIRST_UNLOCK_SCORE && 1 !in r {
      r := r + [1];
    }
    if finalScore >= SECOND_UNLOCK_SCORE && 2 !in r {
      r := r + [2];
    }
  }

  /** The progress `handleGameOver` saves after a run on `level`. */
  function AfterGameOver(p: GameProgress, level: Level, finalScore: int): (r: GameProgress)
    ensures r.easyHighScore == if level == Easy then Max(p.easyHighScore, finalScore) else p.easyHighScore
    ensures r.hardHighScore == if level == Hard then Max(p.hardHighScore, finalScore) else p.hardHighScore
    ensures forall x :: x in r.unlockedShips <==>
      x in p.unlockedShips
      || (level == Easy && ((x == 1 && finalScore >= FIRST_UNLOCK_SCORE) || (x == 2 && finalScore >= SECOND_UNLOCK_SCORE)))
    ensures forall x :: x in r.unlockedUfos <==>
      x in p.unlockedUfos
      || (level == Hard && ((x == 1 && finalScore >= FIRST_UNLOCK_SCORE) || (x == 2 && finalScore >= SECOND_UNLOCK_SCORE)))
    ensures level == Easy ==> r.unlockedUfos == p.unlockedUfos
    ensures level == Hard ==> r.unlockedShips == p.unlockedShips
    ensures |p.unlockedShips| <= |r.unlockedShips| && r.unlockedShips[..|p.unlockedShips|] == p.unlockedShips
    ensures |p.unlockedUfos| <= |r.unlockedUfos| && r.unlockedUfos[..|p.unlockedUfos|] == p.unlockedUfos
    ensures r.selectedShip == p.selectedShip && r.selectedUfo == p.selectedUfo
    ensures WellFormedProgress(p) ==> WellFormedProgress(r)
  {
    var ships := if level == Easy then UnlockForScore(p.unlockedShips, finalScore) else p.unlockedShips;
    var ufos := if level == Hard then UnlockForScore(p.unlockedUfos, finalScore) else p.unlockedUfos;
    p.(easyHighScore := if level == Easy then Max(p.easyHighScore, finalScore) else p.easyHighScore,
       hardHighScore := if level == Hard then Max(p.hardHighScore, finalScore) else p.hardHighScore,
       unlockedShips := ships,
       unlockedUfos := ufos)
  }

  /** The new progress `handleGameOver` builds: the level's high score is
      raised, then the level's unlock list is extended. */
  method SaveAfterRun(p: GameProgress, level: Level, finalScore: int) returns (newProgress: GameProgress)
    ensures newProgress == AfterGameOver(p, level, finalScore)
  {
    newProgress := p;
    if level == Easy && finalScore > p.easyHighScore {
      newProgress := newProgress.(easyHighScore := finalScore);
    } else if level == Hard && finalScore > p.hardHighScore {
      newProgress := newProgress.(hardHighScore := finalScore);
    }
    var ships, ufos := newProgress.unlockedShips, newProgress.unlockedUfos;
    if level == Easy {
      ships := UnlockVehicles(ships, finalScore);
    } else if level == Hard {
      ufos := UnlockVehicles(ufos, finalScore);
    }
    newProgress := newProgress.(unlockedShips := ships, unlockedUfos := ufos);
  }

  /** Reporting the same final score for the same level twice saves the same
      progress as reporting it once. */
  lemma {:induction false} GameOverIdempotent(p: GameProgress, level: Level, finalScore: int)
    ensures AfterGameOver(AfterGameOver(p, level, finalScore), level, finalScore) == AfterGameOver(p, level, finalScore)
  {
    var once := AfterGameOver(p, level, finalScore);
    var twice := AfterGameOver(once, level, finalScore);
    if level == Easy {
      UnlockForScoreIdempotent(p.unlockedShips, finalScore);
    } else {
      UnlockForScoreIdempotent(p.unlockedUfos, finalScore);
    }
  }

  lemma UnlockForScoreIdempotent(list: seq<int>, finalScore: int)
    ensures UnlockForScore(UnlockForScore(list, finalScore), finalScore) == UnlockForScore(list, finalScore)
  {
  }

  /** What moves the shell from one screen to the next: logging in, the
      menu's three buttons, a "back" button, choosing a level, leaving a
      run for the menu, the end of a run, and the game-over screen's two
      buttons. */
  datatype ScreenEvent =
    | LoggedIn
    | OpenInstructions
    | OpenLevelSelect
    | OpenCustomization
    | Back
    | LevelChosen
    | LeaveRun
    | RunOver
    | PlayAgainPressed
    | MainMenuPressed

  /** The screen an event leads to, or None when the screen shown offers no
      such event. */
  function Transition(from: GameState, e: ScreenEvent): (r: Option<GameState>)
    ensures r == Some(Playing) <==>
      (from == LevelSelect && e == LevelChosen) || (from == GameOverScreen && e == PlayAgainPressed)
    ensures r == Some(GameOverScreen) <==> from == Playing && e == RunOver
    ensures r != Some(LoginScreen)
    ensures from == LoginScreen ==> (r.Some? <==> e == LoggedIn)
    ensures r.Some? ==> r.value != from
  {
    match (from, e)
    case (LoginScreen, LoggedIn) => Some(Menu)
    case (Menu, OpenInstructions) => Some(Instructions)
    case (Menu, OpenLevelSelect) => Some(LevelSelect)
    case (Menu, OpenCustomization) => Some(Customization)
    case (Instructions, Back) => Some(Menu)
    case (Customization, Back) => Some(Menu)
    case (LevelSelect, Back) => Some(Menu)
    case (LevelSelect, LevelChosen) => Some(Playing)
    case (Playing, LeaveRun) => Some(Menu)
    case (Playing, RunOver) => Some(GameOverScreen)
    case (GameOverScreen, PlayAgainPressed) => Some(Playing)
    case (GameOverScreen, MainMenuPressed) => Some(Menu)
    case _ => None
  }

  /** The screens shown, starting at `from`, while the events happen in
      order; None when some event is not offered by the screen it meets. */
  function Visits(from: GameState, events: seq<ScreenEvent>): (r: Option<seq<GameState>>)
    ensures r.Some? ==> |r.value| == |events| + 1 && r.value[0] == from
    ensures r.Some? ==> forall i :: 0 <= i < |events| ==> Transition(r.value[i], events[i]) == Some(r.value[i + 1])
    decreases |events|
  {
    if events == [] then Some([from])
    else match Transition(from, events[0])
      case None => None
      case Some(next) =>
        match Visits(next, events[1..])
        case None => None
        case Some(rest) => Some([from] + rest)
  }

  /** Starting away from a run, no sequence of events reaches a run or its
      game-over screen without passing through the level selection. */
  lemma {:induction false} NoRunWithoutLevelChoice(from: GameState, events: seq<ScreenEvent>)
    requires from != Playing && from != GameOverScreen
    requires Visits(from, events).Some?
    ensures Playing in Visits(from, events).value ==> LevelSelect in Visits(from, events).value
    ensures GameOverScreen in Visits(from, events).value ==> LevelSelect in Visits(from, events).value
    decreases |events|
  {
    if events != [] {
      var next := Transition(from, events[0]).value;
      var rest := Visits(next, events[1..]).value;
      assert Visits(from, events).value == [from] + rest;
      if next == Playing {
        assert from == LevelSelect;
      } else {
        NoRunWithoutLevelChoice(next, events[1..]);
      }
    }
  }

  /** The shell's state. The transitions are the source's `setGameState`
      calls; progress is what `saveProgress` last stored. */
  class Game {
    var gameState: GameState
    var user: Option<User>
    var selectedLevel: Level
    var score: int
    var progress: GameProgress

    ghost predicate Valid()
      reads this
    {
      WellFormedProgress(progress)
    }

    constructor ()
      ensures Valid()
      ensures gameState == LoginScreen && user == None && selectedLevel == Easy && score == 0
      ensures progress == InitialProgress()
    {
      gameState := LoginScreen;
      user := None;
      selectedLevel := Easy;
      score := 0;
      progress := InitialProgress();
    }

    /** `handleLogin`: remembers the user and opens the main menu. */
    method HandleLogin(u: User)
      requires gameState == LoginScreen
      modifies this`user, this`gameState
      ensures user == Some(u) && Some(gameState) == Transition(old(gameState), LoggedIn)
    {
      user := Some(u);
      gameState := Menu;
    }

    /** The plain screen switches: the menu's three buttons, every "back"
        button, and leaving a run for the menu. Each is offered only on
        the screen that renders it. */
    method ShowScreen(e: ScreenEvent)
      requires e in {OpenInstructions, OpenLevelSelect, OpenCustomization, Back, LeaveRun}
      requires Transition(gameState, e).Some?
      modifies this`gameState
      ensures Some(gameState) == Transition(old(gameState), e)
    {
      if e == OpenInstructions {
        gameState := Instructions;
      } else if e == OpenLevelSelect {
        gameState := LevelSelect;
      } else if e == OpenCustomization {
        gameState := Customization;
      } else {
        gameState := Menu;
      }
    }

    /** `onSelectLevel`: remembers the level and starts a run. */
    method SelectLevel(level: Level)
      requires gameState == LevelSelect
      modifies this`selectedLevel, this`gameState
      ensures selectedLevel == level && Some(gameState) == Transition(old(gameState), LevelChosen)
    {
      selectedLevel := level;
      gameState := Playing;
    }

    /** The "Play Again" button of the game-over screen. */
    method PlayAgain()
      requires gameState == GameOverScreen
      modifies this`gameState
      ensures Some(gameState) == Transition(old(gameState), PlayAgainPressed)
    {
      gameState := Playing;
    }

    /** `resetGame`: the "Main Menu" button of the game-over screen. */
    method ResetGame()
      requires gameState == GameOverScreen
      modifies this`score, this`gameState
      ensures score == 0 && Some(gameState) == Transition(old(gameState), MainMenuPressed)
    {
      score := 0;
      gameState := Menu;
    }

    /** `handleGameOver`: shows the final score, raises the level's high
        score, unlocks vehicles and saves the result. */
    method HandleGameOver(finalScore: int)
      requires Valid() && gameState == Playing
      modifies this`score, this`progress, this`gameState
      ensures Valid()
      ensures score == finalScore && Some(gameState) == Transition(old(gameState), RunOver)
      ensures progress == AfterGameOver(old(progress), selectedLevel, finalScore)
    {
      score := finalScore;
      progress := SaveAfterRun(progress, selectedLevel, finalScore);
      gameState := GameOverScreen;
    }

    /** The customization screen's ship choice, saved through `saveProgress`
        only when the ship is unlocked. */
    method ChooseShip(shipId: int)
      requires Valid()
      modifies this`progress
      ensures Valid()
      ensures progress == if shipId in old(progress).unlockedShips then old(progress).(selectedShip := shipId) else old(progress)
    {
      var saved := Vehicles.SelectShip(progress, shipId);
      if saved.Some? {
        progress := saved.value;
      }
    }

    /** The customization screen's UFO choice. */
    method ChooseUfo(ufoId: int)
      requires Valid()
      modifies this`progress
      ensures Valid()
      ensures progress == if ufoId in old(progress).unlockedUfos then old(progress).(selectedUfo := ufoId) else old(progress)
    {
      var saved := Vehicles.SelectUfo(progress, ufoId);
      if saved.Some? {
        progress := saved.value;
      }
    }
  }
}
