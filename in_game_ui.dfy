/** Model of the logic in Assets/Scripts/InGameUI.cs: the diagonal sweep used by the
    tile fade, and the turn banner. The fade coroutines themselves are not modelled. */
module InGameUI {
  import opened Grid
  import LM = LevelManager

  /** The part of Tilemap.cellBounds the sweep reads. */
  datatype CellBounds = CellBounds(xMin: int, yMin: int, xMax: int, yMax: int)

  /** The cells from `c` stepping down-left while both coordinates stay within the
      lower bounds. */
  function Diagonal(c: Cell, xMin: int, yMin: int): seq<Cell>
    decreases c.x - xMin
  {
    if c.x >= xMin && c.y >= yMin then [c] + Diagonal(Cell(c.x - 1, c.y - 1), xMin, yMin)
    else []
  }

  function Min(a: int, b: int): int {
    if a <= b then a else b
  }

  /** The sweep from `c`: it starts at `c` when `c` is inside the lower bounds and is
      empty otherwise, moves by (-1, -1) per cell, never leaves the lower bounds, and
      holds min(x - xMin, y - yMin) + 1 cells. */
  lemma {:induction false} DiagonalShape(c: Cell, xMin: int, yMin: int)
    ensures var d := Diagonal(c, xMin, yMin);
      && |d| == (if c.x >= xMin && c.y >= yMin then Min(c.x - xMin, c.y - yMin) + 1 else 0)
      && (d != [] <==> c.x >= xMin && c.y >= yMin)
      && (d != [] ==> d[0] == c)
      && (forall k :: 0 <= k < |d| ==> d[k] == Cell(c.x - k, c.y - k))
      && (forall k :: 0 <= k < |d| ==> d[k].x >= xMin && d[k].y >= yMin)
      && (forall k :: 0 <= k < |d| - 1 ==> d[k + 1] == Shift(d[k], Cell(-1, -1)))
    decreases c.x - xMin
  {
    if c.x >= xMin && c.y >= yMin {
      var next := Cell(c.x - 1, c.y - 1);
      DiagonalShape(next, xMin, yMin);
      var d := Diagonal(c, xMin, yMin);
      var rest := Diagonal(next, xMin, yMin);
      assert d == [c] + rest;
      forall k | 1 <= k < |d| ensures d[k] == Cell(c.x - k, c.y - k) {
        assert d[k] == rest[k - 1];
      }
    }
  }

  /** The banner text for the side to move. */
  function TurnText(isPlayerTurn: bool): (text: string)
    ensures text == "Player's Turn" <==> isPlayerTurn
  {
    if isPlayerTurn then "Player's Turn" else "Opponent's Turn"
  }

  /** Whether UpdateTurnText runs for event `e` in the scene named `sceneName`. Only a
      completed turn reaches it, and LevelManager's handler, subscribed first, runs before
      it: when that handler ends the level in a scene with no next-level entry, its
      dictionary lookup throws and the rest of the invocation list is skipped. */
  predicate HandlerReached(e: LM.Event, sceneName: string) {
    e.TurnComplete? &&
    (LM.LevelOutcome(e.numPlayerPieces, e.numOpponentPieces).None? || LM.NextLevel(sceneName).Some?)
  }

  /** The banner's own side flag after a trace of events: UpdateTurnText flips it on
      every completed turn that reaches it. */
  function BannerAfter(isPlayerTurn: bool, trace: seq<LM.Event>, sceneName: string): bool
    decreases |trace|
  {
    if trace == [] then isPlayerTurn
    else BannerAfter(if HandlerReached(trace[0], sceneName) then !isPlayerTurn else isPlayerTurn,
                     trace[1..], sceneName)
  }

  /** While no completed turn ends the level, the banner names the side LevelManager
      lets move, in any scene. */
  lemma {:induction false} BannerTracksTurn(s: LM.TurnState, trace: seq<LM.Event>, sceneName: string)
    requires forall j :: 0 <= j < |trace| && trace[j].TurnComplete? ==>
      LM.LevelOutcome(trace[j].numPlayerPieces, trace[j].numOpponentPieces).None?
    ensures BannerAfter(s.isPlayerTurn, trace, sceneName) == LM.Run(s, trace).isPlayerTurn
    decreases |trace|
  {
    if trace != [] {
      BannerTracksTurn(LM.Next(s, trace[0]), trace[1..], sceneName);
    }
  }

  /** The turn that ends the level leaves LevelManager's side as it was; the banner flips
      away from it exactly when the scene has a next-level entry (otherwise the lookup
      throws before UpdateTurnText runs, and the two still agree). */
  lemma BannerFlipsAtLevelEnd(s: LM.TurnState, p: nat, o: nat, sceneName: string)
    requires LM.LevelOutcome(p, o).Some?
    ensures BannerAfter(s.isPlayerTurn, [LM.TurnComplete(p, o)], sceneName)
      != LM.Run(s, [LM.TurnComplete(p, o)]).isPlayerTurn
      <==> LM.NextLevel(sceneName).Some?
  {
    assert [LM.TurnComplete(p, o)][1..] == [];
  }

  class InGameUI {
    var isPlayerTurn: bool
    var turnText: string
    var cellBounds: CellBounds

    constructor (bounds: CellBounds, initialText: string)
      ensures isPlayerTurn && turnText == initialText && cellBounds == bounds
    {
      isPlayerTurn := true;
      turnText := initialText;
      cellBounds := bounds;
    }

    /** Called on every completed turn: flip the side and show its banner. */
    method UpdateTurnText()
      modifies this
      ensures isPlayerTurn == !old(isPlayerTurn)
      ensures turnText == TurnText(isPlayerTurn)
      ensures cellBounds == old(cellBounds)
      ensures forall sceneName, p: nat, o: nat :: LM.NextLevel(sceneName).Some? ==>
        isPlayerTurn == BannerAfter(old(isPlayerTurn), [LM.TurnComplete(p, o)], sceneName)
    {
      isPlayerTurn := !isPlayerTurn;
      turnText := if isPlayerTurn then "Player's Turn" else "Opponent's Turn";
    }

    /** Both branches of the source run the same loop, so the sweep does not depend on
        `sweepingAxisX`. */
    method GetDiagonalTiles(startPos: Cell, sweepingAxisX: bool) returns (tilesToFade: seq<Cell>)
      ensures tilesToFade == Diagonal(startPos, cellBounds.xMin, cellBounds.yMin)
    {
      tilesToFade := [];
      var bounds := cellBounds;
      var x := startPos.x;
      var y := startPos.y;
      if sweepingAxisX {
        while x >= bounds.xMin && y >= bounds.yMin
          invariant tilesToFade + Diagonal(Cell(x, y), bounds.xMin, bounds.yMin)
            == Diagonal(startPos, bounds.xMin, bounds.yMin)
          decreases x - bounds.xMin
        {
          tilesToFade := tilesToFade + [Cell(x, y)];
          x := x - 1;
          y := y - 1;
        }
      } else {
        while x >= bounds.xMin && y >= bounds.yMin
          invariant tilesToFade + Diagonal(Cell(x, y), bounds.xMin, bounds.yMin)
            == Diagonal(startPos, bounds.xMin, bounds.yMin)
          decreases x - bounds.xMin
        {
          tilesToFade := tilesToFade + [Cell(x, y)];
          x := x - 1;
          y := y - 1;
        }
      }
    }
  }
}
