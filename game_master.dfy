/** Model of Assets/Scripts/GameMaster.cs: progression through the level scenes. The
    static `_currentLevelIndex` is a field of a single GameMaster object. */
module GameMaster {
  import opened LevelManager

  const LevelSceneNames: seq<string> :=
    ["TestInput", "Level 1", "Level 2", "Level 3", "Level 4", "Level 5"]

  const GameEndSceneName: string := "GameOver"

  /** What LevelOver asks of the rest of the game. */
  datatype Reaction = LoadScene(name: string) | ShowLevelWon | ShowLevelLost | ShowLevelDraw

  /** The index and reaction after a level ends with `endState` at level `index`. */
  function AfterLevel(index: nat, endState: EndState): (r: (nat, Reaction))
    requires index < |LevelSceneNames|
    ensures r.0 < |LevelSceneNames|
    ensures endState != PlayerWon ==> r.0 == index
    ensures endState == PlayerLost ==> r.1 == ShowLevelLost
    ensures endState == Draw ==> r.1 == ShowLevelDraw
    ensures endState == PlayerWon && index + 1 < |LevelSceneNames| ==> r == (index + 1, ShowLevelWon)
    ensures endState == PlayerWon && index + 1 == |LevelSceneNames| ==> r == (0, LoadScene(GameEndSceneName))
  {
    match endState
    case PlayerWon =>
      var next := index + 1;
      if next >= |LevelSceneNames| then (0, LoadScene(GameEndSceneName)) else (next, ShowLevelWon)
    case PlayerLost => (index, ShowLevelLost)
    case Draw => (index, ShowLevelDraw)
  }

  /** The index after `wins` levels won in a row from `index`, and whether the game-end
      scene was loaded on the way. */
  function WinStreak(index: nat, wins: nat): (nat, bool)
    requires index < |LevelSceneNames|
    decreases wins
  {
    if wins == 0 then (index, false)
    else
      var (i, reaction) := AfterLevel(index, PlayerWon);
      var (j, ended) := WinStreak(i, wins - 1);
      (j, ended || reaction.LoadScene?)
  }

  /** Winning every level from the first one reaches the game-end scene after exactly
      |LevelSceneNames| wins, back at index 0; fewer wins stay on the level track. */
  lemma {:induction false} WinStreakFrom(index: nat, wins: nat)
    requires index < |LevelSceneNames|
    requires index + wins <= |LevelSceneNames|
    ensures index + wins < |LevelSceneNames| ==> WinStreak(index, wins) == (index + wins, false)
    ensures index + wins == |LevelSceneNames| ==> WinStreak(index, wins) == (0, true)
    decreases wins
  {
    if wins > 0 {
      if index + 1 < |LevelSceneNames| {
        WinStreakFrom(index + 1, wins - 1);
      } else {
        assert wins == 1;
        assert WinStreak(0, 0) == (0, false);
      }
    }
  }

  class GameMaster {
    var currentLevelIndex: nat

    ghost predicate Valid()
      reads this
    {
      currentLevelIndex < |LevelSceneNames|
    }

    constructor ()
      ensures Valid() && currentLevelIndex == 0
    {
      currentLevelIndex := 0;
    }

    /** A won level advances the index, wrapping to 0 with the game-end scene after the
        last one; a lost or drawn level leaves it where it is. */
    method LevelOver(endState: EndState) returns (reaction: Reaction)
      requires Valid()
      modifies this
      ensures Valid()
      ensures (currentLevelIndex, reaction) == AfterLevel(old(currentLevelIndex), endState)
    {
      match endState {
        case PlayerWon =>
          currentLevelIndex := currentLevelIndex + 1;
          if currentLevelIndex >= |LevelSceneNames| {
            currentLevelIndex := 0;
            reaction := LoadScene(GameEndSceneName);
          } else {
            reaction := ShowLevelWon;
          }
        case PlayerLost =>
          reaction := ShowLevelLost;
        case Draw =>
          reaction := ShowLevelDraw;
      }
    }

    /** The scene to load: an in-bounds lookup, since the index stays in range. */
    method LoadLevel() returns (sceneName: string)
      requires Valid()
      ensures sceneName in LevelSceneNames
      ensures sceneName == LevelSceneNames[currentLevelIndex]
    {
      sceneName := LevelSceneNames[currentLevelIndex];
    }
  }
}
