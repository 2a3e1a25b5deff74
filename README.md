# 8-Bit Gambit: verified model of the game logic

8-Bit Gambit is a turn-based, chess-like Unity game. The player and a computer opponent take turns:
1. Select one of their own pieces with taps of a single key, and confirm it with a hold.
2. Select a target among the enemy pieces (or their own attacker) and confirm it.
3. The attacker's explosion pattern goes off around the target.

This project models the engine-independent part of that game in Dafny and proves what the code promises.

- **Attack patterns** (`ExplosionSequences`, `PatternRenderer`). An explosion sequence is a list of small integer codes:
  - 1..4 step up, right, down or left;
  - a code above 4 steps like the code 4 below it and marks the tile it reaches as skipped.

  `DrawPattern` walks every sequence of the controlling piece from one root highlight. The model is the `Renderer` class: its highlight list is a sequence field appended to in place. It is proved equal to a closed form: the k-th highlight of a sequence sits at the root shifted by the sum of the first k+1 decoded offsets.
- **Turns and levels** (`LevelManager`, `GameMaster`):
  - the input-state machine (`SelectPiece`, `SelectTarget`, `Attack`, `CanvasEnabled`) and the side to move;
  - the level-over decision on the two piece counts, and the next-level map;
  - the wrapped level index of the game master.

  Each handler is a method on a class. Each one is tied to a transition function, whose trace properties are proved: turn parity, and a finished level staying finished.
- **Selection** (`Selection`, `Player`, `Opponent`):
  - the player cycles its selection modulo the list length, builds the target list "enemy pieces, then the attacker", and guards confirm and release with a started flag;
  - the opponent's coroutines walk an index up one step at a time to a randomly drawn index. They are modelled as loops; the draw is a parameter constrained by Unity's `Random.Range` contract.
- **Board and UI** (`Board`, `InGameUI`):
  - `FindChessPieces` sorts the found pieces by x (a stable sort) and splits them by side;
  - `GetDiagonalTiles` sweeps a down-left diagonal inside the tilemap's lower bounds;
  - `UpdateTurnText` flips the banner.

Pieces are values with an id, a side, an integer x and their explosion pattern; two pieces are the same object exactly when they are equal values. Positions are integer grid cells.

## Model

| member | source | states |
|---|---|---|
| ExplosionSequences.SquareSkipCodes | Assets/Scripts/ExplosionSequence.cs:7-9 | for square tiles the skip codes that cross a real edge are exactly 5..8; edge e has skip code e+4; an edge code is never a skip code |
| PatternRenderer.DecodeShape | Assets/Scripts/PatternRenderer.cs:77-105 | a code is skipped exactly when it exceeds 4; it moves exactly when it is in 1..8; every move is one orthogonal tile |
| PatternRenderer.DecodeDirections | Assets/Scripts/PatternRenderer.cs:89-102 | 1 is y+1, 2 is x+1, 3 is y-1 and 4 is x-1, all active; a code in 5..8 moves like its edge and is inactive |
| PatternRenderer.WalkAt | Assets/Scripts/PatternRenderer.cs:71-121 | the k-th highlight of a sequence sits at the root plus the summed offsets of codes 0..k; it is active exactly when code k is not a skip code; it carries the sprite flag |
| PatternRenderer.WalkNext | Assets/Scripts/PatternRenderer.cs:74-121 | step 0 is placed from the root and every later step from the highlight appended just before it |
| PatternRenderer.PatternHighlightsNext | Assets/Scripts/PatternRenderer.cs:61-122 | drawing one more sequence appends that sequence's walk |
| PatternRenderer.PatternHighlightsCount | Assets/Scripts/PatternRenderer.cs:71-122 | the number of highlights is the sum of the sequence lengths |
| PatternRenderer.PatternHighlightsAppend | Assets/Scripts/PatternRenderer.cs:61-74 | every sequence restarts from the root, so drawing a+b is drawing a, then b as if alone |
| PatternRenderer.RepeatFlagIgnored | Assets/Scripts/PatternRenderer.cs:61-122 | the highlights depend only on the codes, never on `IsRepeating` |
| PatternRenderer.Renderer.constructor | Assets/Scripts/PatternRenderer.cs:9-11 | no controlling piece, no highlights, no root |
| PatternRenderer.Renderer.SetControllingPiece | Assets/Scripts/PatternRenderer.cs:29-32 | sets the controlling piece and nothing else |
| PatternRenderer.Renderer.DrawPattern | Assets/Scripts/PatternRenderer.cs:55-125 | the root is created once, at the local origin, active and with the sprite flag, and only when there is a sequence; the highlight list grows by exactly the pattern's closed-form walks |
| PatternRenderer.Renderer.InstantiateRoot | Assets/Scripts/PatternRenderer.cs:63-70 | a missing root is created at the origin; an existing one is kept |
| PatternRenderer.Renderer.AppendSequence | Assets/Scripts/PatternRenderer.cs:71-121 | the inner loop appends exactly the walk of one sequence from the root |
| LevelManager.LevelOutcome | Assets/Scripts/LevelManager.cs:149-167 | both counts 0 is a draw; only the player at 0 is a loss; only the opponent at 0 is a win; otherwise not over (each an if-and-only-if) |
| LevelManager.NextLevel | Assets/Scripts/LevelManager.cs:37-44 | the lookup succeeds exactly for the keys of the map |
| LevelManager.NextLevelMap | Assets/Scripts/LevelManager.cs:37-44 | "Level k" leads to "Level k+1" for k in 1..4 and "Level 5" to "GameOver"; the map is defined on exactly those five names, not on "TestInput" |
| LevelManager.TurnParity | Assets/Scripts/LevelManager.cs:96-101 | after any event trace, the side to move has flipped once per completed turn that left the level on |
| LevelManager.LevelOverIsFinal | Assets/Scripts/LevelManager.cs:98 | once a side has no pieces, completed turns change neither field |
| LevelManager.FullTurn | Assets/Scripts/LevelManager.cs:78-101 | confirm, attack, then complete with both sides alive gives the other side the move in SelectPiece |
| LevelManager.LevelManager.constructor | Assets/Scripts/LevelManager.cs:14-16 | the initial state is SelectPiece with the player to move |
| LevelManager.LevelManager.ConfirmSelectedPiece | Assets/Scripts/LevelManager.cs:78-81 | the state becomes SelectTarget whatever the arguments; the turn is unchanged |
| LevelManager.LevelManager.Attack | Assets/Scripts/LevelManager.cs:88-91 | the state becomes Attack; the turn is unchanged |
| LevelManager.LevelManager.CompleteTurn | Assets/Scripts/LevelManager.cs:96-111 | if the level is over, nothing changes and the end state and next scene are reported; otherwise the turn flips, the state is SelectPiece, and the new mover's turn starts |
| LevelManager.LevelManager.CheckForLevelOver | Assets/Scripts/LevelManager.cs:144-168 | returns the level outcome, and when over the next-scene lookup of the active scene (None where the indexer throws) |
| LevelManager.LevelManager.SetCanvasEnabled | Assets/Scripts/LevelManager.cs:136-139 | CanvasEnabled when shown, SelectPiece otherwise; the turn is unchanged |
| GameMaster.AfterLevel | Assets/Scripts/GameMaster.cs:35-60 | a win raises the index, or wraps it to 0 and loads "GameOver" past the last scene; a loss or draw keeps the index and shows its canvas; the index stays in range |
| GameMaster.WinStreakFrom | Assets/Scripts/GameMaster.cs:39-50 | wins from index i stay on the level track until the list's end, where the game-end scene is loaded and the index is back at 0 |
| GameMaster.GameMaster.constructor | Assets/Scripts/GameMaster.cs:16 | the index starts at 0 |
| GameMaster.GameMaster.LevelOver | Assets/Scripts/GameMaster.cs:35-60 | updates the index and reacts as AfterLevel says, keeping the index in range |
| GameMaster.GameMaster.LoadLevel | Assets/Scripts/GameMaster.cs:66-69 | the lookup is in bounds and names a scene of the list |
| Selection.IndexOf | Assets/Scripts/Player.cs:245 | -1 exactly when the piece is absent, otherwise its first position |
| Selection.NextIndex | Assets/Scripts/Player.cs:180 | the next index stays below the count, and wraps from the last position to 0 |
| Selection.CycleWraps | Assets/Scripts/Player.cs:177-184 | k steps, at most one round, advance the index by k modulo the count |
| Selection.CycleReturns | Assets/Scripts/Player.cs:177-184 | every index is reached within one round, and a full round returns to the start |
| Selection.Targets | Assets/Scripts/Player.cs:247 | the target list is the enemy pieces in order followed by the attacker: length enemies+1, nothing else in it |
| Selection.AsWrittenSkipsLastPiece | Assets/Scripts/Opponent.cs:50 | the piece draw as written never yields the last piece when there are two or more |
| Selection.PieceChoiceCoversAll | Assets/Scripts/Opponent.cs:50-51 | the corrected draw yields exactly the valid indices, the last included |
| Selection.AsWrittenWithinCorrected | Assets/Scripts/Opponent.cs:50 | every draw the code as written can make is a draw of the corrected range, so the opponent's contracts cover the code as written too |
| Player.Taps | Assets/Scripts/Player.cs:113-118 | taps in SelectPiece keep the input ready and the piece list unchanged |
| Player.TapsCycle | Assets/Scripts/Player.cs:177-184 | k taps move the selection k steps round the pieces, select the piece at the new index and change nothing else |
| Player.TapsRoundTrip | Assets/Scripts/Player.cs:177-184 | as many taps as pieces give back the starting state |
| Player.HoldThenRelease | Assets/Scripts/Player.cs:189-195 | hold starts confirming; a second hold changes nothing; a release then restores the state; a release with nothing running does nothing |
| Player.KeysIgnored | Assets/Scripts/Player.cs:59-62 | keys change nothing outside the player's turn, with a canvas shown, or in the Attack state |
| Player.ConfirmAfterTurnStart | Assets/Scripts/Player.cs:238-257 | after the turn starts, confirming makes the targets the opponent's pieces plus the attacker; it aims at the first of them (or at the attacker) and stops confirming |
| Player.OpponentEventsIgnored | Assets/Scripts/Player.cs:238-240 | confirm, attack and refresh events of the opponent leave the player unchanged |
| Player.Player.constructor | Assets/Scripts/Player.cs:50-54 | reads the board's player pieces and starts the turn |
| Player.Player.SelectPiece | Assets/Scripts/Player.cs:177-184 | the next piece is selected, its index in range and wrapping |
| Player.Player.ConfirmPiece | Assets/Scripts/Player.cs:189-195 | sets the started flag only if it was clear |
| Player.Player.SelectTarget | Assets/Scripts/Player.cs:200-219 | the next target is selected, its index in range and wrapping |
| Player.Player.ConfirmTarget | Assets/Scripts/Player.cs:224-230 | sets the started flag only if it was clear |
| Player.Player.ConfirmSelectedPiece | Assets/Scripts/Player.cs:238-257 | for the player: the confirmed piece and its IndexOf position become the selection, the targets are rebuilt as the opponent's pieces plus the attacker, the target at the unchanged target index is selected, and the progress-bar flag is cleared; ignored for the opponent |
| Player.Player.Attack | Assets/Scripts/Player.cs:264-281 | clears the started flag and completes the turn for the player only |
| Player.Player.PerformSelectedPieceReleaseInput | Assets/Scripts/Player.cs:286-291 | clears the started flag if set, else does nothing |
| Player.Player.PerformTargetPieceReleaseInput | Assets/Scripts/Player.cs:296-301 | clears the started flag if set, else does nothing |
| Player.Player.PlayerTurn | Assets/Scripts/Player.cs:306-318 | on the player's turn: both indices 0, piece 0 selected, key state cleared; otherwise nothing |
| Player.Player.RefreshPieces | Assets/Scripts/Player.cs:325-331 | a player piece's death replaces the list with the board's; others are ignored |
| Player.Player.TapInput | Assets/Scripts/Player.cs:113-128 | dispatches a tap by input state; nothing in Attack |
| Player.Player.HoldInput | Assets/Scripts/Player.cs:135-150 | dispatches a hold by input state; nothing in Attack |
| Player.Player.ReleaseInput | Assets/Scripts/Player.cs:157-172 | dispatches a release by input state; nothing in Attack |
| Player.Player.Update | Assets/Scripts/Player.cs:59-106 | a key event changes nothing outside the player's turn or with a canvas shown, and is dispatched otherwise |
| Opponent.WalkLands | Assets/Scripts/Opponent.cs:72-93 | a walk ends on the index to select, holding that piece, after visiting exactly the pieces strictly after the start up to the target, one per step |
| Opponent.TurnSelectsChoice | Assets/Scripts/Opponent.cs:40-52 | on its turn, the opponent ends with the drawn piece selected, the target index reset and its lists untouched; otherwise nothing changes |
| Opponent.ConfirmSelectsChoice | Assets/Scripts/Opponent.cs:129-151 | confirming makes the targets the player's pieces plus the attacker, and selects the drawn target |
| Opponent.PlayerEventsIgnored | Assets/Scripts/Opponent.cs:129-131 | confirm and refresh events of the player leave the opponent unchanged |
| Opponent.Opponent.constructor | Assets/Scripts/Opponent.cs:27-35 | reads the board's opponent pieces and selects the first |
| Opponent.Opponent.OpponentTurn | Assets/Scripts/Opponent.cs:40-52 | skips the player's turn and shown canvases; otherwise resets both indices, selects piece 0 and walks to the drawn piece, visiting the pieces after 0 up to it |
| Opponent.Opponent.SelectPiece | Assets/Scripts/Opponent.cs:72-93 | the loop ends on the index to select, as the recursive walk does, and touches no other field |
| Opponent.Opponent.SelectTarget | Assets/Scripts/Opponent.cs:100-122 | the same walk over the target list |
| Opponent.Opponent.ConfirmSelectedPiece | Assets/Scripts/Opponent.cs:129-151 | for the opponent: the confirmed piece is selected, targets are rebuilt, and the walk reaches the drawn target; ignored for the player |
| Opponent.Opponent.Attack | Assets/Scripts/Opponent.cs:158-177 | completes the turn for the opponent only |
| Opponent.Opponent.RefreshPieces | Assets/Scripts/Opponent.cs:59-65 | an opponent piece's death replaces the list with the board's; others are ignored |
| Board.InsertSorted | Assets/Scripts/Board.cs:28-29 | inserting into an x-sorted list keeps it sorted |
| Board.InsertElements | Assets/Scripts/Board.cs:28-29 | insertion adds exactly the new piece |
| Board.InsertAtX | Assets/Scripts/Board.cs:28-29 | the inserted piece goes before every piece already at its x |
| Board.SortByXSorted | Assets/Scripts/Board.cs:28-29 | OrderBy yields non-decreasing x |
| Board.SortByXPermutes | Assets/Scripts/Board.cs:28-29 | OrderBy keeps every piece with its multiplicity |
| Board.SortByXStable | Assets/Scripts/Board.cs:28-29 | pieces with equal x keep their input order |
| Board.SortByXCorrect | Assets/Scripts/Board.cs:28-29 | sorted, a permutation, and stable |
| Board.SideAppend | Assets/Scripts/Board.cs:31-41 | one loop step adds the piece to exactly its side |
| Board.SideMembers | Assets/Scripts/Board.cs:33-40 | a side's list holds exactly the found pieces of that side |
| Board.SideCounts | Assets/Scripts/Board.cs:31-41 | the two lists together hold every piece exactly once |
| Board.SideSorted | Assets/Scripts/Board.cs:28-41 | a side of an x-sorted list is x-sorted |
| Board.SideAtX | Assets/Scripts/Board.cs:28-41 | taking a side and then an x is taking the x and then the side |
| Board.FoundListsCorrect | Assets/Scripts/Board.cs:26-42 | each list holds exactly its side's pieces, sorted by x and stable; the sizes add up to the number found |
| Board.Board.constructor | Assets/Scripts/Board.cs:12-24 | the lists are the sides of the sorted found pieces |
| Board.Board.FindChessPieces | Assets/Scripts/Board.cs:26-42 | the loop appends exactly each side of the sorted pieces to its list and keeps each list one-sided |
| Board.Board.GetPlayerPieces | Assets/Scripts/Board.cs:44 | the stored list itself, holding player pieces only |
| Board.Board.GetOpponentPieces | Assets/Scripts/Board.cs:46 | the stored list itself, holding opponent pieces only |
| InGameUI.DiagonalShape | Assets/Scripts/InGameUI.cs:102-107 | the sweep starts at the start cell when it is inside the lower bounds (else it is empty); it steps by (-1,-1), stays inside the bounds, and holds min(x-xMin, y-yMin)+1 cells |
| InGameUI.TurnText | Assets/Scripts/InGameUI.cs:39 | the text is "Player's Turn" exactly on the player's turn |
| InGameUI.BannerTracksTurn | Assets/Scripts/InGameUI.cs:36-40 | in any scene, while no completed turn ends the level, the banner's flag equals LevelManager's side to move |
| InGameUI.BannerFlipsAtLevelEnd | Assets/Scripts/InGameUI.cs:29-40 | the level-ending turn leaves LevelManager's side alone; the banner flips away from it exactly when the active scene has a next-level entry, since otherwise LevelManager's handler, subscribed earlier, throws on the lookup and UpdateTurnText never runs |
| InGameUI.InGameUI.constructor | Assets/Scripts/InGameUI.cs:21 | the banner starts on the player's side |
| InGameUI.InGameUI.UpdateTurnText | Assets/Scripts/InGameUI.cs:36-40 | flips the flag and shows the matching text; in a scene with a next-level entry this is the banner step for every completed turn |
| InGameUI.InGameUI.GetDiagonalTiles | Assets/Scripts/InGameUI.cs:93-120 | both loops build the same diagonal, so the result does not depend on the sweep axis |

## Left out

- The GameEvent bus is not part of this model. Events are direct method calls, and a handler's effect on other objects is reported in its result; for example, `CompleteTurn` returns which side's turn starts.
- LevelManager.LevelManager.CompleteTurn: returns which turn starts rather than calling `PlayerTurn`/`OpponentTurn`; the details panel fade is not modelled.
- Player.Player.Update: the frame timers (`Time.deltaTime`, tap and hold thresholds) are abstracted to one Tap, Hold or Release event per call. A quick tap, which the source follows with a release in the same frame, is two calls.
- Highlights, progress bars, flashing, sounds, music, camera shake, animations (`TriggerAnimations`, `Explode`, `CheckIfTargeted`) and the pattern overlay's instantiation and reparenting are visual or audio effects and are left out.
- Player.Player.Attack and Opponent.Opponent.Attack: the explosion of every piece goes through `Board.GetAllPieces`, which is not defined in Board.cs. Only the turn hand-off is modelled.
- InGameUI's canvases (`LevelWon`, `LevelLost`, `LevelDraw`), `FadeAllTiles`, `FadeTile`, `SetOpacityAllTiles`, `FadeDetailsPanel` and `AddCapturedPiece` are rendering and are left out; `GameMaster.Reaction` names which canvas is asked for.
- `LevelManager.UpdateCapturedPieces`, `GetProgressBarSprites` and resource loading are UI plumbing.
- The next-scene name CheckForLevelOver passes to `GameEvent.LevelOver` is computed. `GameMaster.LevelOver` takes the end state only, as the two revisions of that signature disagree.
- `Board.NumEdgesInTile` is not defined in Board.cs; it is taken as 4, the square-tile value documented beside the sequence encoding.
- PatternRenderer.Renderer.DrawPattern: the root highlight is taken to sit at the renderer's local origin (the prefab is instantiated under the renderer without keeping world position). The z coordinate, the rotation and the opponent overlay's 180-degree turn are not modelled.
- Positions are integer cells; the sort key of `FindChessPieces` is the piece's float x, modelled as an integer.
- Unity's scene queries (`FindObjectsOfType`, `SceneManager`) are parameters: the found pieces, the active scene name, the board lists.
- `Random.Range` is a parameter constrained by the integer contract of `Random.Range` (`InRandomRange`).
- Opponent.Opponent.OpponentTurn: uses the corrected piece draw; the draw as written is modelled separately (see Findings).
- Crashes the source does not guard against are preconditions. They are: a null selected piece, an empty list under `% Count`, an index past the end of a list (including an opponent walk asked to reach an index behind its current one, which runs off the list), and the `ArgumentOutOfRangeException` arm of the input switches.
- The `ExplosionSequence` asset's `IsRepeating` flag and its `false` default are a serialized field initializer, not an operation. `DrawPattern` never reads the flag, so repetition is not modelled; `RepeatFlagIgnored` proves it irrelevant.

## Findings

| source | as written | input that shows it | evidently intended | confidence | as-written member | corrected member |
|---|---|---|---|---|---|---|
| Assets/Scripts/Opponent.cs:50 | the opponent's piece is drawn with `Random.Range(0, _pieces.Count - 1)`, whose integer upper bound is exclusive | two opponent pieces: the draw is always 0, so piece 1 is never chosen; in general the last piece never attacks first-choice | `Random.Range(0, _pieces.Count)`, the same range as the target draw at line 149 | medium, not executed | Selection.AsWrittenSkipsLastPiece | Selection.PieceChoiceCoversAll |
