/** Model of Assets/Scripts/PatternRenderer.cs: turning a piece's explosion pattern
    into highlight objects laid out on the grid. */
module PatternRenderer {
  import opened Wrappers
  import opened Grid
  import opened ExplosionSequences
  import opened Pieces

  /** What one code does: the move from the start tile and whether the tile reached is skipped. */
  datatype Step = Step(offset: Cell, skipped: bool)

  /** One instantiated highlight: its local position, whether it is active
      (SetActive), and whether its SpriteRenderer is enabled. */
  datatype Highlight = Highlight(pos: Cell, active: bool, spriteEnabled: bool)

  /** The renderer's own local origin, where the root highlight is parented. */
  const Origin: Cell := Cell(0, 0)

  /** The per-code decoding of DrawPattern: subtract the edge count from a skip code,
      then move one tile up, right, down or left for 1..4; any other value stays put. */
  function Decode(code: int): Step
  {
    var skipped := code - NumEdgesInTile > 0;
    var switchNum := if skipped then code - NumEdgesInTile else code;
    var offset :=
      if switchNum == 1 then Cell(0, 1)
      else if switchNum == 2 then Cell(1, 0)
      else if switchNum == 3 then Cell(0, -1)
      else if switchNum == 4 then Cell(-1, 0)
      else Origin;
    Step(offset, skipped)
  }

  /** A code is skipped exactly when it exceeds the edge count; it moves exactly when it
      is an edge code or a skip code offset from one; every move is one orthogonal tile. */
  lemma DecodeShape(code: int)
    ensures Decode(code).skipped <==> IsSkip(code)
    ensures Decode(code).offset == Origin <==> code <= 0 || code > 2 * NumEdgesInTile
    ensures Decode(code).offset.x == 0 || Decode(code).offset.y == 0
    ensures -1 <= Decode(code).offset.x <= 1 && -1 <= Decode(code).offset.y <= 1
  {
  }

  /** The four square-tile edges, and a skip code moving like the edge it is offset from. */
  lemma DecodeDirections(code: int)
    ensures Decode(1) == Step(Cell(0, 1), false)
    ensures Decode(2) == Step(Cell(1, 0), false)
    ensures Decode(3) == Step(Cell(0, -1), false)
    ensures Decode(4) == Step(Cell(-1, 0), false)
    ensures 5 <= code <= 8 ==> Decode(code) == Step(Decode(EdgeCrossed(code)).offset, true)
  {
  }

  /** The highlight created for `code` when its walk stands on `start`. */
  function Place(start: Cell, code: int, enable: bool): Highlight {
    var s := Decode(code);
    Highlight(Shift(start, s.offset), !s.skipped, enable)
  }

  /** The first `n` highlights of one sequence walked from `root`: step 0 starts from
      the root, every later step from the highlight appended just before it. */
  function Walk(root: Cell, codes: seq<int>, n: nat, enable: bool): (w: seq<Highlight>)
    requires n <= |codes|
    ensures |w| == n
    decreases n
  {
    if n == 0 then []
    else
      var prev := Walk(root, codes, n - 1, enable);
      var start := if n == 1 then root else prev[n - 2].pos;
      prev + [Place(start, codes[n - 1], enable)]
  }

  /** One more step of a walk appends one highlight, placed from the previous one. */
  lemma WalkNext(root: Cell, codes: seq<int>, n: nat, enable: bool)
    requires n < |codes|
    ensures Walk(root, codes, n + 1, enable)
      == Walk(root, codes, n, enable)
         + [Place(if n == 0 then root else Walk(root, codes, n, enable)[n - 1].pos, codes[n], enable)]
  {
  }

  /** Regrouping a concatenation; called as a hint where a loop appends to a prefix. */
  lemma AppendAssoc<T>(a: seq<T>, b: seq<T>, c: seq<T>)
    ensures (a + b) + c == a + (b + c)
  {
  }

  /** The sum of the decoded offsets of the first `n` codes. */
  function Displacement(codes: seq<int>, n: nat): Cell
    requires n <= |codes|
    decreases n
  {
    if n == 0 then Origin
    else Shift(Displacement(codes, n - 1), Decode(codes[n - 1]).offset)
  }

  /** Closed form of a walk: one highlight per code, the k-th standing at the root
      shifted by the offsets of codes 0..k, active exactly when code k is not a skip code,
      and every one carrying the same sprite flag. */
  lemma {:induction false} WalkAt(root: Cell, codes: seq<int>, n: nat, enable: bool, k: nat)
    requires k < n <= |codes|
    ensures Walk(root, codes, n, enable)[k]
      == Highlight(Shift(root, Displacement(codes, k + 1)), !IsSkip(codes[k]), enable)
    decreases n
  {
    if k < n - 1 {
      WalkAt(root, codes, n - 1, enable, k);
    } else if n > 1 {
      WalkAt(root, codes, n - 1, enable, n - 2);
    }
  }

  /** The highlights of the first `n` sequences of a pattern: every sequence walked from
      the same root, in order. */
  function PatternHighlights(pattern: seq<ExplosionSequence>, n: nat, enable: bool): seq<Highlight>
    requires n <= |pattern|
    decreases n
  {
    if n == 0 then []
    else
      var codes := pattern[n - 1].sequence;
      PatternHighlights(pattern, n - 1, enable) + Walk(Origin, codes, |codes|, enable)
  }

  /** Drawing one more sequence appends that sequence's walk. */
  lemma PatternHighlightsNext(pattern: seq<ExplosionSequence>, p: nat, enable: bool)
    requires p < |pattern|
    ensures PatternHighlights(pattern, p + 1, enable)
      == PatternHighlights(pattern, p, enable)
         + Walk(Origin, pattern[p].sequence, |pattern[p].sequence|, enable)
  {
  }

  /** Sum of the lengths of the first `n` sequences of a pattern. */
  function TotalLength(pattern: seq<ExplosionSequence>, n: nat): nat
    requires n <= |pattern|
    decreases n
  {
    if n == 0 then 0 else TotalLength(pattern, n - 1) + |pattern[n - 1].sequence|
  }

  /** One highlight is appended per code of every sequence. */
  lemma {:induction false} PatternHighlightsCount(pattern: seq<ExplosionSequence>, n: nat, enable: bool)
    requires n <= |pattern|
    ensures |PatternHighlights(pattern, n, enable)| == TotalLength(pattern, n)
    decreases n
  {
    if n > 0 {
      PatternHighlightsCount(pattern, n - 1, enable);
    }
  }

  /** `IsRepeating` is never read: two patterns whose first `n` sequences carry the same
      codes draw the same highlights. */
  lemma {:induction false} RepeatFlagIgnored(pattern: seq<ExplosionSequence>, other: seq<ExplosionSequence>, n: nat, enable: bool)
    requires n <= |pattern| && n <= |other|
    requires forall j :: 0 <= j < n ==> pattern[j].sequence == other[j].sequence
    ensures PatternHighlights(pattern, n, enable) == PatternHighlights(other, n, enable)
    decreases n
  {
    if n > 0 {
      RepeatFlagIgnored(pattern, other, n - 1, enable);
    }
  }

  /** Every sequence restarts from the root: drawing `a` then the first `n` sequences of `b`
      gives the highlights of `a` followed by those of `b`, as if `b` were drawn alone. */
  lemma {:induction false} PatternHighlightsAppend(a: seq<ExplosionSequence>, b: seq<ExplosionSequence>, n: nat, enable: bool)
    requires n <= |b|
    ensures PatternHighlights(a + b, |a| + n, enable)
      == PatternHighlights(a, |a|, enable) + PatternHighlights(b, n, enable)
    decreases n
  {
    if n == 0 {
      assert forall j :: 0 <= j < |a| ==> (a + b)[j] == a[j];
      RepeatFlagIgnored(a + b, a, |a|, enable);
    } else {
      PatternHighlightsAppend(a, b, n - 1, enable);
      var codes := b[n - 1].sequence;
      assert (a + b)[|a| + n - 1].sequence == codes;
      AppendAssoc(PatternHighlights(a, |a|, enable), PatternHighlights(b, n - 1, enable),
                  Walk(Origin, codes, |codes|, enable));
    }
  }

  /** The renderer attached to a piece overlay. */
  class Renderer {
    var controllingPiece: Option<ChessPiece>
    var highlights: seq<Highlight>
    var root: Option<Highlight>

    /** The root highlight, once created, sits at the local origin and is active. */
    ghost predicate Valid()
      reads this
    {
      root.Some? ==> root.value.pos == Origin && root.value.active
    }

    constructor ()
      ensures Valid()
      ensures controllingPiece == None && highlights == [] && root == None
    {
      controllingPiece := None;
      highlights := [];
      root := None;
    }

    method SetControllingPiece(piece: ChessPiece)
      requires Valid()
      modifies this
      ensures Valid()
      ensures controllingPiece == Some(piece)
      ensures highlights == old(highlights) && root == old(root)
    {
      controllingPiece := Some(piece);
    }

    /** Lays out the controlling piece's pattern. The root is created once, and only
        when there is a sequence to draw; the highlights of every sequence are appended. */
    method DrawPattern(enableSpriteRenderer: bool)
      requires Valid()
      requires controllingPiece.Some?
      modifies this`root, this`highlights
      ensures Valid()
      ensures root == if old(root).None? && |controllingPiece.value.explosionPattern| > 0
                      then Some(Highlight(Origin, true, enableSpriteRenderer))
                      else old(root)
      ensures highlights
        == old(highlights) + PatternHighlights(controllingPiece.value.explosionPattern, |controllingPiece.value.explosionPattern|, enableSpriteRenderer)
    {
      var pattern := controllingPiece.value.explosionPattern;
      var p := 0;
      while p < |pattern|
        invariant 0 <= p <= |pattern|
        invariant Valid()
        invariant root == if old(root).None? && p > 0
                          then Some(Highlight(Origin, true, enableSpriteRenderer))
                          else old(root)
        invariant highlights == old(highlights) + PatternHighlights(pattern, p, enableSpriteRenderer)
      {
        InstantiateRoot(enableSpriteRenderer);
        var codes := pattern[p].sequence;
        AppendSequence(codes, enableSpriteRenderer);
        PatternHighlightsNext(pattern, p, enableSpriteRenderer);
        AppendAssoc(old(highlights), PatternHighlights(pattern, p, enableSpriteRenderer),
                    Walk(Origin, codes, |codes|, enableSpriteRenderer));
        p := p + 1;
      }
    }

    /** The root highlight is instantiated only once, at the local origin. */
    method InstantiateRoot(enableSpriteRenderer: bool)
      requires Valid()
      modifies this`root
      ensures Valid() && root.Some?
      ensures root == if old(root).None? then Some(Highlight(Origin, true, enableSpriteRenderer)) else old(root)
    {
      if root.None? {
        root := Some(Highlight(Origin, true, enableSpriteRenderer));
      }
    }

    /** The inner loop of DrawPattern: one highlight per code, step 0 from the root and
        every later step from the highlight appended last. */
    method AppendSequence(codes: seq<int>, enableSpriteRenderer: bool)
      requires Valid() && root.Some?
      modifies this`highlights
      ensures highlights == old(highlights) + Walk(Origin, codes, |codes|, enableSpriteRenderer)
    {
      ghost var before := highlights;
      var i := 0;
      while i < |codes|
        invariant 0 <= i <= |codes|
        invariant highlights == before + Walk(Origin, codes, i, enableSpriteRenderer)
      {
        var start := if i == 0 then root.value.pos else highlights[|highlights| - 1].pos;
        var step := Decode(codes[i]);
        var highlight := Highlight(Shift(start, step.offset), !step.skipped, enableSpriteRenderer);
        WalkNext(Origin, codes, i, enableSpriteRenderer);
        AppendAssoc(before, Walk(Origin, codes, i, enableSpriteRenderer), [highlight]);
        assert start == if i == 0 then Origin else Walk(Origin, codes, i, enableSpriteRenderer)[i - 1].pos;
        assert highlight == Place(start, codes[i], enableSpriteRenderer);
        highlights := highlights + [highlight];
        i := i + 1;
      }
    }
  }
}
