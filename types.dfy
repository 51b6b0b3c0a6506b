/** Shared types of the game shell (app/page.tsx): screens, levels, the
    logged-in user and the persisted progress record. */
module Types {

  datatype Option<+T> = None | Some(value: T)

  /** The two playable levels: the "hold to rise" city and the "tap to jump"
      asteroid field. */
  datatype Level = Easy | Hard

  /** The screens the game shell can show. */
  datatype GameState =
    | LoginScreen
    | Menu
    | Instructions
    | LevelSelect
    | Customization
    | Playing
    | GameOverScreen

  datatype User = User(name: string, email: Option<string>)

  /** Progress kept across runs: one high score per level, the unlocked
      vehicle ids per level, and the selected vehicle per level. */
  datatype GameProgress = GameProgress(
    easyHighScore: int,
    hardHighScore: int,
    unlockedShips: seq<int>,
    unlockedUfos: seq<int>,
    selectedShip: int,
    selectedUfo: int)

  predicate NoDuplicates(s: seq<int>)
  {
    forall i, j :: 0 <= i < j < |s| ==> s[i] != s[j]
  }

  /** The progress a new player starts with: vehicle 0 of each kind unlocked
      and selected, no high scores. */
  function InitialProgress(): (p: GameProgress)
    ensures p.unlockedShips == [0] && p.unlockedUfos == [0]
    ensures p.selectedShip == 0 && p.selectedUfo == 0
    ensures p.easyHighScore == 0 && p.hardHighScore == 0
    ensures WellFormedProgress(p)
  {
    GameProgress(0, 0, [0], [0], 0, 0)
  }

  /** What every progress record the game produces satisfies: the default
      vehicles are unlocked, no id is unlocked twice, the selections are
      unlocked vehicles and the high scores are not negative. */
  predicate WellFormedProgress(p: GameProgress)
  {
    && 0 in p.unlockedShips && 0 in p.unlockedUfos
    && NoDuplicates(p.unlockedShips) && NoDuplicates(p.unlockedUfos)
    && p.selectedShip in p.unlockedShips && p.selectedUfo in p.unlockedUfos
    && p.easyHighScore >= 0 && p.hardHighScore >= 0
  }
}
