/** Model of Assets/Scripts/Player.cs: the human side's selection logic. The timers of
    Update are abstracted to three key events (tap, hold, release); the board lists the
    handlers read arrive as parameters; highlights, progress bars and the pattern
    overlay are visual effects and are not modelled. */
module Player {
  import opened Wrappers
  import opened Pieces
  import opened Selection
  import LM = LevelManager

  /** The discrete key inputs Update derives from its tap and hold timers. */
  datatype KeyEvent = Tap | Hold | Release

  /** The fields of a Player object that its handlers change. */
  datatype PlayerState = PlayerState(
    pieces: seq<ChessPiece>,
    selectedPiece: Option<ChessPiece>,      // null until the first turn starts
    selectedIndex: int,                     // may be -1 after IndexOf misses
    targetPieces: seq<ChessPiece>,
    selectedTarget: Option<ChessPiece>,
    targetIndex: int,
    isKeyDown: bool,
    coroutineStarted: bool)

  /** Indices are never below what the handlers can produce. */
  predicate Valid(s: PlayerState) {
    s.selectedIndex >= -1 && s.targetIndex >= 0
  }

  /** SelectPiece: the next own piece, wrapping from the last to the first. */
  function SelectNextPiece(s: PlayerState): PlayerState
    requires Valid(s) && |s.pieces| > 0 && s.selectedPiece.Some?
  {
    var i := NextIndex(s.selectedIndex, |s.pieces|);
    s.(selectedIndex := i, selectedPiece := Some(s.pieces[i]))
  }

  /** SelectTarget: the next target, wrapping from the last to the first. */
  function SelectNextTarget(s: PlayerState): PlayerState
    requires Valid(s) && |s.targetPieces| > 0 && s.selectedTarget.Some?
  {
    var i := NextIndex(s.targetIndex, |s.targetPieces|);
    s.(targetIndex := i, selectedTarget := Some(s.targetPieces[i]))
  }

  /** ConfirmPiece / ConfirmTarget: start the progress bar unless one is running. */
  function StartConfirm(s: PlayerState): PlayerState {
    if s.coroutineStarted then s else s.(coroutineStarted := true)
  }

  /** PerformSelectedPieceReleaseInput / PerformTargetPieceReleaseInput: stop a running
      progress bar, if any. */
  function StopConfirm(s: PlayerState): PlayerState {
    if !s.coroutineStarted then s else s.(coroutineStarted := false)
  }

  /** What a key event needs of the state in the input state it arrives in. */
  predicate InputReady(s: PlayerState, state: LM.InputState) {
    && Valid(s)
    && state != LM.CanvasEnabled
    && (state == LM.SelectPiece ==> |s.pieces| > 0 && s.selectedPiece.Some?)
    && (state == LM.SelectTarget ==> |s.targetPieces| > 0 && s.selectedTarget.Some?)
  }

  /** TapInput, HoldInput and ReleaseInput: dispatch on the input state; nothing happens
      in the Attack state. */
  function OnKey(s: PlayerState, event: KeyEvent, state: LM.InputState): PlayerState
    requires InputReady(s, state)
  {
    match state
    case SelectPiece =>
      (match event
       case Tap => SelectNextPiece(s)
       case Hold => StartConfirm(s)
       case Release => StopConfirm(s))
    case SelectTarget =>
      (match event
       case Tap => SelectNextTarget(s)
       case Hold => StartConfirm(s)
       case Release => StopConfirm(s))
    case Attack => s
    case CanvasEnabled => s
  }

  /** Update's guard: keys count only on the player's turn and with no canvas shown. */
  function HandleKey(s: PlayerState, event: KeyEvent, isPlayerTurn: bool, state: LM.InputState): PlayerState
    requires isPlayerTurn && state != LM.CanvasEnabled ==> InputReady(s, state)
  {
    if !isPlayerTurn || state == LM.CanvasEnabled then s else OnKey(s, event, state)
  }

  /** ConfirmSelectedPiece: the confirmed piece becomes the attacker and the targets are
      the opponent's pieces followed by that piece. */
  function ConfirmSelected(s: PlayerState, piece: ChessPiece, isPlayer: bool, opponentPieces: seq<ChessPiece>): PlayerState
    requires isPlayer ==> s.selectedPiece.Some? && 0 <= s.targetIndex <= |opponentPieces|
  {
    if !isPlayer then s
    else
      var targets := Targets(opponentPieces, piece);
      s.(coroutineStarted := false,
         selectedPiece := Some(piece),
         selectedIndex := IndexOf(s.pieces, piece),
         targetPieces := targets,
         selectedTarget := Some(targets[s.targetIndex]))
  }

  /** Attack: the player's attack clears the progress-bar flag. */
  function AttackLaunched(s: PlayerState, isPlayer: bool): PlayerState {
    if !isPlayer then s else s.(coroutineStarted := false)
  }

  /** PlayerTurn: on the player's turn, select the first piece with both indices reset. */
  function TurnStarted(s: PlayerState, isPlayerTurn: bool): PlayerState
    requires isPlayerTurn ==> |s.pieces| > 0
  {
    if !isPlayerTurn then s
    else s.(isKeyDown := false, selectedIndex := 0, targetIndex := 0, selectedPiece := Some(s.pieces[0]))
  }

  /** RefreshPieces: a player piece died, so reread the board's player list. */
  function Refreshed(s: PlayerState, isPlayer: bool, boardPlayerPieces: seq<ChessPiece>): PlayerState {
    if !isPlayer then s else s.(pieces := boardPlayerPieces)
  }

  /** `k` taps in the SelectPiece state. */
  function Taps(s: PlayerState, k: nat): (r: PlayerState)
    requires InputReady(s, LM.SelectPiece)
    ensures InputReady(r, LM.SelectPiece) && r.pieces == s.pieces
    decreases k
  {
    if k == 0 then s else OnKey(Taps(s, k - 1), Tap, LM.SelectPiece)
  }

  /** Tapping walks the selection through the own pieces in order, wrapping around, and
      touches nothing else; `count` taps give back the state tapping started from. */
  lemma {:induction false} TapsCycle(s: PlayerState, k: nat)
    requires InputReady(s, LM.SelectPiece)
    requires 0 <= s.selectedIndex < |s.pieces|
    ensures Taps(s, k).selectedIndex == Cycle(s.selectedIndex, |s.pieces|, k)
    ensures k > 0 ==> Taps(s, k).selectedPiece == Some(s.pieces[Taps(s, k).selectedIndex])
    ensures Taps(s, k).(selectedIndex := s.selectedIndex, selectedPiece := s.selectedPiece) == s
    decreases k
  {
    if k > 0 {
      TapsCycle(s, k - 1);
    }
  }

  lemma TapsRoundTrip(s: PlayerState)
    requires InputReady(s, LM.SelectPiece)
    requires 0 <= s.selectedIndex < |s.pieces|
    requires s.selectedPiece == Some(s.pieces[s.selectedIndex])
    ensures Taps(s, |s.pieces|) == s
  {
    TapsCycle(s, |s.pieces|);
    CycleReturns(s.selectedIndex, |s.pieces|);
  }

  /** Holding confirms once: a second hold while the progress bar runs changes nothing,
      and a release afterwards stops it, leaving the state as it was before the hold. */
  lemma HoldThenRelease(s: PlayerState, state: LM.InputState)
    requires InputReady(s, state) && state != LM.Attack
    ensures OnKey(s, Hold, state).coroutineStarted
    ensures OnKey(OnKey(s, Hold, state), Hold, state) == OnKey(s, Hold, state)
    ensures OnKey(OnKey(s, Hold, state), Release, state) == s.(coroutineStarted := false)
    ensures !s.coroutineStarted ==> OnKey(s, Release, state) == s
  {
  }

  /** In the Attack state, and outside the player's turn, no key event changes anything. */
  lemma KeysIgnored(s: PlayerState, event: KeyEvent, state: LM.InputState, isPlayerTurn: bool)
    requires state == LM.Attack || !isPlayerTurn || state == LM.CanvasEnabled
    requires isPlayerTurn && state != LM.CanvasEnabled ==> InputReady(s, state)
    ensures HandleKey(s, event, isPlayerTurn, state) == s
  {
  }

  /** After the turn starts, confirming a piece builds the target list as the opponent's
      pieces plus the attacker and aims first at the first opponent piece (or at the
      attacker itself when the opponent has none); the attacker's index is its position
      among the own pieces. */
  lemma ConfirmAfterTurnStart(s: PlayerState, piece: ChessPiece, opponentPieces: seq<ChessPiece>)
    requires |s.pieces| > 0
    ensures var t := ConfirmSelected(TurnStarted(s, true), piece, true, opponentPieces);
      && t.targetPieces == opponentPieces + [piece]
      && t.selectedTarget == Some(if opponentPieces == [] then piece else opponentPieces[0])
      && t.selectedPiece == Some(piece)
      && (piece in s.pieces ==> s.pieces[t.selectedIndex] == piece)
      && !t.coroutineStarted
  {
  }

  /** Events raised for the opponent leave the player's state alone. */
  lemma OpponentEventsIgnored(s: PlayerState, piece: ChessPiece, opponentPieces: seq<ChessPiece>, board: seq<ChessPiece>)
    ensures ConfirmSelected(s, piece, false, opponentPieces) == s
    ensures AttackLaunched(s, false) == s
    ensures Refreshed(s, false, board) == s
  {
  }

  class Player {
    var pieces: seq<ChessPiece>
    var selectedPiece: Option<ChessPiece>
    var selectedIndex: int
    var targetPieces: seq<ChessPiece>
    var selectedTarget: Option<ChessPiece>
    var targetIndex: int
    var isKeyDown: bool
    var coroutineStarted: bool

    function State(): PlayerState
      reads this
    {
      PlayerState(pieces, selectedPiece, selectedIndex, targetPieces, selectedTarget,
                  targetIndex, isKeyDown, coroutineStarted)
    }

    /** Awake and Start: read the board's player pieces and begin the turn. */
    constructor (boardPlayerPieces: seq<ChessPiece>, isPlayerTurn: bool)
      requires isPlayerTurn ==> |boardPlayerPieces| > 0
      ensures Valid(State())
      ensures State() == TurnStarted(
        PlayerState(boardPlayerPieces, None, 0, [], None, 0, false, false), isPlayerTurn)
    {
      pieces := boardPlayerPieces;
      selectedPiece := None;
      selectedIndex := 0;
      targetPieces := [];
      selectedTarget := None;
      targetIndex := 0;
      isKeyDown := false;
      coroutineStarted := false;
      new;
      PlayerTurn(isPlayerTurn);
    }

    method SelectPiece()
      requires Valid(State()) && |pieces| > 0 && selectedPiece.Some?
      modifies this
      ensures State() == SelectNextPiece(old(State()))
      ensures 0 <= selectedIndex < |pieces| && selectedPiece == Some(pieces[selectedIndex])
    {
      selectedIndex := (selectedIndex + 1) % |pieces|;
      selectedPiece := Some(pieces[selectedIndex]);
    }

    method ConfirmPiece()
      requires selectedPiece.Some?
      modifies this
      ensures State() == StartConfirm(old(State()))
      ensures coroutineStarted
    {
      if coroutineStarted {
        return;
      }
      coroutineStarted := true;
    }

    method SelectTarget()
      requires Valid(State()) && |targetPieces| > 0 && selectedTarget.Some?
      modifies this
      ensures State() == SelectNextTarget(old(State()))
      ensures 0 <= targetIndex < |targetPieces| && selectedTarget == Some(targetPieces[targetIndex])
    {
      targetIndex := (targetIndex + 1) % |targetPieces|;
      selectedTarget := Some(targetPieces[targetIndex]);
    }

    method ConfirmTarget()
      requires selectedTarget.Some?
      modifies this
      ensures State() == StartConfirm(old(State()))
      ensures coroutineStarted
    {
      if coroutineStarted {
        return;
      }
      coroutineStarted := true;
    }

    method ConfirmSelectedPiece(piece: ChessPiece, isPlayer: bool, opponentPieces: seq<ChessPiece>)
      requires Valid(State())
      requires isPlayer ==> selectedPiece.Some? && targetIndex <= |opponentPieces|
      modifies this
      ensures Valid(State())
      ensures State() == ConfirmSelected(old(State()), piece, isPlayer, opponentPieces)
    {
      if !isPlayer {
        return;
      }
      coroutineStarted := false;
      selectedPiece := Some(piece);
      selectedIndex := IndexOf(pieces, piece);
      targetPieces := opponentPieces + [piece];
      selectedTarget := Some(targetPieces[targetIndex]);
    }

    /** Returns whether the turn is handed on (GameEvent.CompleteTurn). */
    method Attack(pieceToAttack: ChessPiece, isPlayer: bool) returns (completeTurn: bool)
      requires isPlayer ==> selectedPiece.Some? && selectedTarget.Some?
      modifies this
      ensures State() == AttackLaunched(old(State()), isPlayer)
      ensures completeTurn == isPlayer
    {
      if !isPlayer {
        return false;
      }
      coroutineStarted := false;
      completeTurn := true;
    }

    method PerformSelectedPieceReleaseInput()
      requires coroutineStarted ==> selectedPiece.Some?
      modifies this
      ensures State() == StopConfirm(old(State()))
      ensures !coroutineStarted
    {
      if !coroutineStarted {
        return;
      }
      coroutineStarted := false;
    }

    method PerformTargetPieceReleaseInput()
      requires coroutineStarted ==> selectedTarget.Some?
      modifies this
      ensures State() == StopConfirm(old(State()))
      ensures !coroutineStarted
    {
      if !coroutineStarted {
        return;
      }
      coroutineStarted := false;
    }

    method PlayerTurn(isPlayerTurn: bool)
      requires isPlayerTurn ==> |pieces| > 0
      modifies this
      ensures State() == TurnStarted(old(State()), isPlayerTurn)
      ensures isPlayerTurn ==> selectedIndex == 0 && targetIndex == 0 && selectedPiece == Some(pieces[0])
    {
      if !isPlayerTurn {
        return;
      }
      isKeyDown := false;
      selectedIndex := 0;
      targetIndex := 0;
      selectedPiece := Some(pieces[selectedIndex]);
    }

    method RefreshPieces(piece: ChessPiece, isPlayer: bool, boardPlayerPieces: seq<ChessPiece>)
      modifies this
      ensures State() == Refreshed(old(State()), isPlayer, boardPlayerPieces)
    {
      if !isPlayer {
        return;
      }
      pieces := boardPlayerPieces;
    }

    method TapInput(state: LM.InputState)
      requires InputReady(State(), state)
      modifies this
      ensures State() == OnKey(old(State()), Tap, state)
    {
      match state {
        case SelectPiece => SelectPiece();
        case SelectTarget => SelectTarget();
        case Attack =>
        case CanvasEnabled =>
      }
    }

    method HoldInput(state: LM.InputState)
      requires InputReady(State(), state)
      modifies this
      ensures State() == OnKey(old(State()), Hold, state)
    {
      match state {
        case SelectPiece => ConfirmPiece();
        case SelectTarget => ConfirmTarget();
        case Attack =>
        case CanvasEnabled =>
      }
    }

    method ReleaseInput(state: LM.InputState)
      requires InputReady(State(), state)
      modifies this
      ensures State() == OnKey(old(State()), Release, state)
    {
      match state {
        case SelectPiece => PerformSelectedPieceReleaseInput();
        case SelectTarget => PerformTargetPieceReleaseInput();
        case Attack =>
        case CanvasEnabled =>
      }
    }

    /** Update, with its timers abstracted to one key event per call. */
    method Update(event: KeyEvent, isPlayerTurn: bool, state: LM.InputState)
      requires isPlayerTurn && state != LM.CanvasEnabled ==> InputReady(State(), state)
      modifies this
      ensures State() == HandleKey(old(State()), event, isPlayerTurn, state)
    {
      if !isPlayerTurn || state == LM.CanvasEnabled {
        return;
      }
      match event {
        case Tap => TapInput(state);
        case Hold => HoldInput(state);
        case Release => ReleaseInput(state);
      }
    }
  }
}
