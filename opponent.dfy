/** Model of Assets/Scripts/Opponent.cs: the computer side. Its coroutines step the
    selection one piece per delay until a randomly drawn index is reached; here each
    walk is a loop, the random index is a parameter, and the delays, highlights,
    sounds and flashing are not modelled. */
module Opponent {
  import opened Wrappers
  import opened Pieces
  import opened Selection
  import LM = LevelManager

  /** The fields of an Opponent object that its handlers change. */
  datatype OpponentState = OpponentState(
    pieces: seq<ChessPiece>,
    selectedPiece: Option<ChessPiece>,
    selectedIndex: int,
    targetPieces: seq<ChessPiece>,
    selectedTarget: Option<ChessPiece>,
    targetIndex: int)

  /** The recursive coroutines SelectPiece / SelectTarget: stop once the index equals the
      one to select, otherwise move one position on and select the piece there. */
  function WalkTo(list: seq<ChessPiece>, index: int, current: Option<ChessPiece>, indexToSelect: int): (int, Option<ChessPiece>)
    requires 0 <= index <= indexToSelect < |list|
    decreases indexToSelect - index
  {
    if index == indexToSelect then (index, current)
    else WalkTo(list, index + 1, Some(list[index + 1]), indexToSelect)
  }

  /** The pieces highlighted one after the other during a walk. */
  function Visits(list: seq<ChessPiece>, index: int, indexToSelect: int): seq<ChessPiece>
    requires 0 <= index <= indexToSelect < |list|
    decreases indexToSelect - index
  {
    if index == indexToSelect then [] else [list[index + 1]] + Visits(list, index + 1, indexToSelect)
  }

  /** A walk ends on the index to select, holding the piece at that index (or the
      current piece when no step was needed), after visiting exactly the pieces
      between the start and the index to select, one step per position. */
  lemma {:induction false} WalkLands(list: seq<ChessPiece>, index: int, current: Option<ChessPiece>, indexToSelect: int)
    requires 0 <= index <= indexToSelect < |list|
    ensures WalkTo(list, index, current, indexToSelect)
      == (indexToSelect, if index == indexToSelect then current else Some(list[indexToSelect]))
    ensures Visits(list, index, indexToSelect) == list[index + 1..indexToSelect + 1]
    ensures |Visits(list, index, indexToSelect)| == indexToSelect - index
    decreases indexToSelect - index
  {
    if index < indexToSelect {
      WalkLands(list, index + 1, Some(list[index + 1]), indexToSelect);
      assert list[index + 1..indexToSelect + 1] == [list[index + 1]] + list[index + 2..indexToSelect + 1];
    }
  }

  /** OpponentTurn: on the opponent's turn with no canvas shown, reset both indices,
      select piece 0 and walk to the drawn piece. */
  function TurnStarted(s: OpponentState, isPlayerTurn: bool, state: LM.InputState, choice: int): OpponentState
    requires !isPlayerTurn && state != LM.CanvasEnabled ==> |s.pieces| > 0 && PieceChoice(choice, |s.pieces|)
  {
    if isPlayerTurn || state == LM.CanvasEnabled then s
    else
      var (i, p) := WalkTo(s.pieces, 0, Some(s.pieces[0]), choice);
      s.(selectedIndex := i, selectedPiece := p, targetIndex := 0)
  }

  /** ConfirmSelectedPiece: the targets are the player's pieces followed by the attacker;
      then walk to the drawn target. */
  function ConfirmSelected(s: OpponentState, piece: ChessPiece, isPlayer: bool,
                           playerPieces: seq<ChessPiece>, choice: int): OpponentState
    requires !isPlayer ==> 0 <= s.targetIndex <= choice && InRandomRange(choice, 0, |playerPieces| + 1)
  {
    if isPlayer then s
    else
      var targets := Targets(playerPieces, piece);
      var (i, t) := WalkTo(targets, s.targetIndex, Some(targets[s.targetIndex]), choice);
      s.(selectedPiece := Some(piece), selectedIndex := IndexOf(s.pieces, piece),
         targetPieces := targets, targetIndex := i, selectedTarget := t)
  }

  /** RefreshPieces: an opponent piece died, so reread the board's opponent list. */
  function Refreshed(s: OpponentState, isPlayer: bool, boardOpponentPieces: seq<ChessPiece>): OpponentState {
    if isPlayer then s else s.(pieces := boardOpponentPieces)
  }

  /** The opponent's turn ends with the drawn piece selected, target index reset, and
      its lists untouched; on the player's turn or with a canvas shown nothing happens. */
  lemma TurnSelectsChoice(s: OpponentState, isPlayerTurn: bool, state: LM.InputState, choice: int)
    requires !isPlayerTurn && state != LM.CanvasEnabled ==> |s.pieces| > 0 && PieceChoice(choice, |s.pieces|)
    ensures isPlayerTurn || state == LM.CanvasEnabled ==> TurnStarted(s, isPlayerTurn, state, choice) == s
    ensures !isPlayerTurn && state != LM.CanvasEnabled ==>
      var t := TurnStarted(s, isPlayerTurn, state, choice);
      && t.selectedIndex == choice && t.selectedPiece == Some(s.pieces[choice])
      && t.targetIndex == 0 && t.pieces == s.pieces && t.targetPieces == s.targetPieces
  {
    if !isPlayerTurn && state != LM.CanvasEnabled {
      WalkLands(s.pieces, 0, Some(s.pieces[0]), choice);
    }
  }

  /** After confirming, the targets are the player's pieces plus the attacker, and the
      drawn target is selected. */
  lemma ConfirmSelectsChoice(s: OpponentState, piece: ChessPiece, playerPieces: seq<ChessPiece>, choice: int)
    requires 0 <= s.targetIndex <= choice && InRandomRange(choice, 0, |playerPieces| + 1)
    ensures var t := ConfirmSelected(s, piece, false, playerPieces, choice);
      && t.targetPieces == playerPieces + [piece]
      && t.targetIndex == choice
      && t.selectedTarget == Some(t.targetPieces[choice])
      && t.selectedPiece == Some(piece)
      && (piece in s.pieces ==> s.pieces[t.selectedIndex] == piece)
  {
    var targets := Targets(playerPieces, piece);
    WalkLands(targets, s.targetIndex, Some(targets[s.targetIndex]), choice);
  }

  /** Events raised for the player leave the opponent's state alone. */
  lemma PlayerEventsIgnored(s: OpponentState, piece: ChessPiece, playerPieces: seq<ChessPiece>, choice: int, board: seq<ChessPiece>)
    ensures ConfirmSelected(s, piece, true, playerPieces, choice) == s
    ensures Refreshed(s, true, board) == s
  {
  }

  class Opponent {
    var pieces: seq<ChessPiece>
    var selectedPiece: Option<ChessPiece>
    var selectedIndex: int
    var targetPieces: seq<ChessPiece>
    var selectedTarget: Option<ChessPiece>
    var targetIndex: int

    function State(): OpponentState
      reads this
    {
      OpponentState(pieces, selectedPiece, selectedIndex, targetPieces, selectedTarget, targetIndex)
    }

    /** Start: read the board's opponent pieces and select the first. */
    constructor (boardOpponentPieces: seq<ChessPiece>)
      requires |boardOpponentPieces| > 0
      ensures State() == OpponentState(boardOpponentPieces, Some(boardOpponentPieces[0]), 0, [], None, 0)
    {
      pieces := boardOpponentPieces;
      selectedIndex := 0;
      selectedPiece := Some(boardOpponentPieces[0]);
      targetPieces := [];
      selectedTarget := None;
      targetIndex := 0;
    }

    /** Returns the pieces highlighted one after another on the way. */
    method OpponentTurn(isPlayerTurn: bool, state: LM.InputState, choice: int) returns (visited: seq<ChessPiece>)
      requires !isPlayerTurn && state != LM.CanvasEnabled ==> |pieces| > 0 && PieceChoice(choice, |pieces|)
      modifies this
      ensures State() == TurnStarted(old(State()), isPlayerTurn, state, choice)
      ensures visited == if isPlayerTurn || state == LM.CanvasEnabled then [] else pieces[1..choice + 1]
    {
      if isPlayerTurn || state == LM.CanvasEnabled {
        return [];
      }
      selectedIndex := 0;
      targetIndex := 0;
      selectedPiece := Some(pieces[selectedIndex]);
      visited := SelectPiece(choice);
      WalkLands(pieces, 0, Some(pieces[0]), choice);
    }

    /** The SelectPiece coroutine as a loop: one step per iteration. */
    method SelectPiece(indexToSelect: int) returns (visited: seq<ChessPiece>)
      requires 0 <= selectedIndex <= indexToSelect < |pieces|
      modifies this
      ensures State() == old(State()).(
        selectedIndex := WalkTo(old(pieces), old(selectedIndex), old(selectedPiece), indexToSelect).0,
        selectedPiece := WalkTo(old(pieces), old(selectedIndex), old(selectedPiece), indexToSelect).1)
      ensures selectedIndex == indexToSelect
      ensures visited == Visits(pieces, old(selectedIndex), indexToSelect)
    {
      visited := [];
      while selectedIndex != indexToSelect
        invariant old(selectedIndex) <= selectedIndex <= indexToSelect
        invariant pieces == old(pieces) && targetPieces == old(targetPieces)
        invariant selectedTarget == old(selectedTarget) && targetIndex == old(targetIndex)
        invariant WalkTo(pieces, selectedIndex, selectedPiece, indexToSelect)
          == WalkTo(pieces, old(selectedIndex), old(selectedPiece), indexToSelect)
        invariant visited + Visits(pieces, selectedIndex, indexToSelect)
          == Visits(pieces, old(selectedIndex), indexToSelect)
        decreases indexToSelect - selectedIndex
      {
        selectedIndex := selectedIndex + 1;
        selectedPiece := Some(pieces[selectedIndex]);
        visited := visited + [pieces[selectedIndex]];
      }
    }

    /** The SelectTarget coroutine as a loop. */
    method SelectTarget(indexToSelect: int) returns (visited: seq<ChessPiece>)
      requires 0 <= targetIndex <= indexToSelect < |targetPieces|
      modifies this
      ensures State() == old(State()).(
        targetIndex := WalkTo(old(targetPieces), old(targetIndex), old(selectedTarget), indexToSelect).0,
        selectedTarget := WalkTo(old(targetPieces), old(targetIndex), old(selectedTarget), indexToSelect).1)
      ensures targetIndex == indexToSelect
      ensures visited == Visits(targetPieces, old(targetIndex), indexToSelect)
    {
      visited := [];
      while targetIndex != indexToSelect
        invariant old(targetIndex) <= targetIndex <= indexToSelect
        invariant pieces == old(pieces) && targetPieces == old(targetPieces)
        invariant selectedPiece == old(selectedPiece) && selectedIndex == old(selectedIndex)
        invariant WalkTo(targetPieces, targetIndex, selectedTarget, indexToSelect)
          == WalkTo(targetPieces, old(targetIndex), old(selectedTarget), indexToSelect)
        invariant visited + Visits(targetPieces, targetIndex, indexToSelect)
          == Visits(targetPieces, old(targetIndex), indexToSelect)
        decreases indexToSelect - targetIndex
      {
        targetIndex := targetIndex + 1;
        selectedTarget := Some(targetPieces[targetIndex]);
        visited := visited + [targetPieces[targetIndex]];
      }
    }

    /** Returns the targets highlighted one after another on the way. */
    method ConfirmSelectedPiece(piece: ChessPiece, isPlayer: bool, playerPieces: seq<ChessPiece>, choice: int)
      returns (visited: seq<ChessPiece>)
      requires !isPlayer ==> selectedPiece.Some?
      requires !isPlayer ==> 0 <= targetIndex <= choice && InRandomRange(choice, 0, |playerPieces| + 1)
      modifies this
      ensures State() == ConfirmSelected(old(State()), piece, isPlayer, playerPieces, choice)
      ensures visited == if isPlayer then [] else (playerPieces + [piece])[old(targetIndex) + 1..choice + 1]
    {
      if isPlayer {
        return [];
      }
      selectedPiece := Some(piece);
      selectedIndex := IndexOf(pieces, piece);
      targetPieces := playerPieces + [piece];
      selectedTarget := Some(targetPieces[targetIndex]);
      visited := SelectTarget(choice);
      WalkLands(targetPieces, old(targetIndex), Some(targetPieces[old(targetIndex)]), choice);
    }

    /** Returns whether the turn is handed on (GameEvent.CompleteTurn). */
    method Attack(pieceToAttack: ChessPiece, isPlayer: bool) returns (completeTurn: bool)
      requires !isPlayer ==> selectedPiece.Some? && selectedTarget.Some?
      ensures completeTurn == !isPlayer
    {
      completeTurn := !isPlayer;
    }

    method RefreshPieces(piece: ChessPiece, isPlayer: bool, boardOpponentPieces: seq<ChessPiece>)
      modifies this
      ensures State() == Refreshed(old(State()), isPlayer, boardOpponentPieces)
    {
      if isPlayer {
        return;
      }
      pieces := boardOpponentPieces;
    }
  }
}
