/** Model of Assets/Scripts/LevelManager.cs: the turn and input-state machine. Events of
    the GameEvent bus arrive as direct method calls; the piece counts that
    CheckForLevelOver reads from the board arrive as parameters. */
module LevelManager {
  import opened Wrappers
  import opened Pieces

  datatype InputState = SelectPiece | SelectTarget | Attack | CanvasEnabled

  datatype EndState = PlayerWon | PlayerLost | Draw

  /** The decision of CheckForLevelOver: None while both sides still have pieces. */
  function LevelOutcome(numPlayerPieces: nat, numOpponentPieces: nat): (r: Option<EndState>)
    ensures r == Some(Draw) <==> numPlayerPieces == 0 && numOpponentPieces == 0
    ensures r == Some(PlayerLost) <==> numPlayerPieces == 0 && numOpponentPieces > 0
    ensures r == Some(PlayerWon) <==> numPlayerPieces > 0 && numOpponentPieces == 0
    ensures r == None <==> numPlayerPieces > 0 && numOpponentPieces > 0
  {
    if numPlayerPieces == 0 then
      if numOpponentPieces == 0 then Some(Draw) else Some(PlayerLost)
    else if numOpponentPieces != 0 then None
    else Some(PlayerWon)
  }

  /** `_currentLevelToNextLevel`: the scene that follows each level scene. */
  const CurrentLevelToNextLevel: map<string, string> := map[
    "Level 1" := "Level 2",
    "Level 2" := "Level 3",
    "Level 3" := "Level 4",
    "Level 4" := "Level 5",
    "Level 5" := "GameOver"
  ]

  /** "Level k" for a one-digit k. */
  function LevelName(k: nat): string
    requires 1 <= k <= 9
  {
    "Level " + [(k + '0' as int) as char]
  }

  /** The lookup made with the active scene name; None where the C# indexer throws. */
  function NextLevel(sceneName: string): (r: Option<string>)
    ensures r.Some? <==> sceneName in CurrentLevelToNextLevel.Keys
  {
    if sceneName in CurrentLevelToNextLevel then Some(CurrentLevelToNextLevel[sceneName]) else None
  }

  /** Levels 1..4 lead to the next level, level 5 to the game-over scene, and no other
      scene name (the "TestInput" scene among them) has an entry. */
  lemma NextLevelMap(sceneName: string)
    ensures forall k :: 1 <= k <= 4 ==> NextLevel(LevelName(k)) == Some(LevelName(k + 1))
    ensures NextLevel(LevelName(5)) == Some("GameOver")
    ensures NextLevel(sceneName).Some? <==> exists k :: 1 <= k <= 5 && sceneName == LevelName(k)
    ensures NextLevel("TestInput") == None
  {
    assert LevelName(1) == "Level 1";
    assert LevelName(2) == "Level 2";
    assert LevelName(3) == "Level 3";
    assert LevelName(4) == "Level 4";
    assert LevelName(5) == "Level 5";
  }

  /** The pair of fields the event handlers change. */
  datatype TurnState = TurnState(input: InputState, isPlayerTurn: bool)

  const Initial: TurnState := TurnState(SelectPiece, true)

  /** The events LevelManager reacts to. TurnComplete carries the board's piece counts. */
  datatype Event =
    | PieceConfirmed
    | TargetAttacked
    | TurnComplete(numPlayerPieces: nat, numOpponentPieces: nat)
    | CanvasToggled(enabled: bool)

  /** The transition made by one event. */
  function Next(s: TurnState, e: Event): TurnState {
    match e
    case PieceConfirmed => s.(input := SelectTarget)
    case TargetAttacked => s.(input := Attack)
    case TurnComplete(p, o) =>
      if LevelOutcome(p, o).Some? then s
      else TurnState(SelectPiece, !s.isPlayerTurn)
    case CanvasToggled(b) => s.(input := if b then CanvasEnabled else SelectPiece)
  }

  /** The state after a whole trace of events. */
  function Run(s: TurnState, trace: seq<Event>): TurnState
    decreases |trace|
  {
    if trace == [] then s else Run(Next(s, trace[0]), trace[1..])
  }

  /** Number of events in the trace that end a turn without ending the level. */
  function TurnsPassed(trace: seq<Event>): nat
    decreases |trace|
  {
    if trace == [] then 0
    else (if trace[0].TurnComplete? && LevelOutcome(trace[0].numPlayerPieces, trace[0].numOpponentPieces).None?
          then 1 else 0) + TurnsPassed(trace[1..])
  }

  /** The side to move changes exactly once per turn that ends with the level still on. */
  lemma {:induction false} TurnParity(s: TurnState, trace: seq<Event>)
    ensures Run(s, trace).isPlayerTurn == (s.isPlayerTurn == (TurnsPassed(trace) % 2 == 0))
    decreases |trace|
  {
    if trace != [] {
      TurnParity(Next(s, trace[0]), trace[1..]);
    }
  }

  /** Once the level is over (one side has no pieces left) no trace of turn-ending events
      changes either field. */
  lemma {:induction false} LevelOverIsFinal(s: TurnState, trace: seq<Event>)
    requires forall j :: 0 <= j < |trace| ==> trace[j].TurnComplete?
    requires forall j :: 0 <= j < |trace| ==>
      trace[j].numPlayerPieces == 0 || trace[j].numOpponentPieces == 0
    ensures Run(s, trace) == s
    decreases |trace|
  {
    if trace != [] {
      assert trace[0].TurnComplete?;
      LevelOverIsFinal(Next(s, trace[0]), trace[1..]);
    }
  }

  /** A full turn, piece confirmed then target attacked then turn complete with both
      sides still holding pieces, hands the move to the other side in SelectPiece. */
  lemma FullTurn(s: TurnState, p: nat, o: nat)
    requires p > 0 && o > 0
    ensures Run(s, [PieceConfirmed, TargetAttacked, TurnComplete(p, o)])
      == TurnState(SelectPiece, !s.isPlayerTurn)
  {
    var s1 := Next(s, PieceConfirmed);
    var s2 := Next(s1, TargetAttacked);
    assert [PieceConfirmed, TargetAttacked, TurnComplete(p, o)][1..] == [TargetAttacked, TurnComplete(p, o)];
    assert [TargetAttacked, TurnComplete(p, o)][1..] == [TurnComplete(p, o)];
    assert [TurnComplete(p, o)][1..] == [];
    assert Run(s2, [TurnComplete(p, o)]) == Next(s2, TurnComplete(p, o));
    assert s2.isPlayerTurn == s.isPlayerTurn;
  }

  /** What CompleteTurn does after updating the state. LevelOver carries the end state
      and the scene name looked up for the event; None there is the lookup that throws. */
  datatype TurnResult = LevelOver(endState: EndState, nextLevel: Option<string>) | PlayerTurnStarts | OpponentTurnStarts

  class LevelManager {
    var inputState: InputState
    var isPlayerTurn: bool

    function State(): TurnState
      reads this
    {
      TurnState(inputState, isPlayerTurn)
    }

    constructor ()
      ensures State() == Initial
      ensures inputState == SelectPiece && isPlayerTurn
    {
      inputState := SelectPiece;
      isPlayerTurn := true;
    }

    /** Whatever piece was confirmed and by whichever side, target selection begins. */
    method ConfirmSelectedPiece(selectedPiece: ChessPiece, isPlayer: bool)
      modifies this
      ensures inputState == SelectTarget && isPlayerTurn == old(isPlayerTurn)
      ensures State() == Next(old(State()), PieceConfirmed)
    {
      inputState := SelectTarget;
    }

    method Attack(targetPiece: ChessPiece, isPlayer: bool)
      modifies this
      ensures inputState == InputState.Attack && isPlayerTurn == old(isPlayerTurn)
      ensures State() == Next(old(State()), TargetAttacked)
    {
      inputState := InputState.Attack;
    }

    /** Ends the turn: if the level is over nothing changes and the end state is
        reported; otherwise the other side moves, starting from SelectPiece. */
    method CompleteTurn(numPlayerPieces: nat, numOpponentPieces: nat, sceneName: string) returns (r: TurnResult)
      modifies this
      ensures State() == Next(old(State()), TurnComplete(numPlayerPieces, numOpponentPieces))
      ensures LevelOutcome(numPlayerPieces, numOpponentPieces).Some? ==>
        r == LevelOver(LevelOutcome(numPlayerPieces, numOpponentPieces).value, NextLevel(sceneName))
        && inputState == old(inputState) && isPlayerTurn == old(isPlayerTurn)
      ensures LevelOutcome(numPlayerPieces, numOpponentPieces).None? ==>
        isPlayerTurn == !old(isPlayerTurn) && inputState == SelectPiece
        && r == (if isPlayerTurn then PlayerTurnStarts else OpponentTurnStarts)
    {
      var over, nextLevel := CheckForLevelOver(numPlayerPieces, numOpponentPieces, sceneName);
      if over.Some? {
        return LevelOver(over.value, nextLevel);
      }
      isPlayerTurn := !isPlayerTurn;
      inputState := SelectPiece;
      r := if isPlayerTurn then PlayerTurnStarts else OpponentTurnStarts;
    }

    /** The switch of CheckForLevelOver on the two piece counts. When the level is over,
        the next scene is looked up with the active scene's name; None is the missing
        key on which the C# indexer throws. */
    method CheckForLevelOver(numPlayerPieces: nat, numOpponentPieces: nat, sceneName: string)
      returns (over: Option<EndState>, nextLevel: Option<string>)
      ensures over == LevelOutcome(numPlayerPieces, numOpponentPieces)
      ensures nextLevel == if over.Some? then NextLevel(sceneName) else None
    {
      nextLevel := None;
      if numPlayerPieces == 0 {
        nextLevel := NextLevel(sceneName);
        if numOpponentPieces == 0 {
          return Some(Draw), nextLevel;
        }
        return Some(PlayerLost), nextLevel;
      }
      if numOpponentPieces != 0 {
        return None, nextLevel;
      }
      nextLevel := NextLevel(sceneName);
      return Some(PlayerWon), nextLevel;
    }

    method SetCanvasEnabled(canvasEnabled: bool)
      modifies this
      ensures inputState == (if canvasEnabled then CanvasEnabled else SelectPiece)
      ensures isPlayerTurn == old(isPlayerTurn)
      ensures State() == Next(old(State()), CanvasToggled(canvasEnabled))
    {
      inputState := if canvasEnabled then CanvasEnabled else SelectPiece;
    }
  }
}
