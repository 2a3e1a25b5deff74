/** Selection helpers shared by Assets/Scripts/Player.cs and Assets/Scripts/Opponent.cs:
    list lookup, index cycling, the target list, and the random draws of the opponent. */
module Selection {
  import opened Pieces

  /** List<T>.IndexOf: the first position of `p`, or -1 when it is absent. */
  function IndexOf(s: seq<ChessPiece>, p: ChessPiece): (i: int)
    ensures -1 <= i < |s|
    ensures i == -1 <==> p !in s
    ensures 0 <= i ==> s[i] == p && p !in s[..i]
    decreases |s|
  {
    if s == [] then -1
    else if s[0] == p then 0
    else
      var j := IndexOf(s[1..], p);
      assert j >= 0 ==> s[1..][..j] == s[1..j + 1];
      if j == -1 then -1 else j + 1
  }

  /** `(index + 1) % count` of the C# code; the operand is never negative, so C#'s
      truncating remainder and Dafny's agree. */
  function NextIndex(index: int, count: nat): (r: nat)
    requires count > 0 && -1 <= index
    ensures r < count
    ensures index + 1 < count ==> r == index + 1
    ensures index + 1 == count ==> r == 0
  {
    (index + 1) % count
  }

  /** The index after `k` selection steps. */
  function Cycle(index: nat, count: nat, k: nat): (r: nat)
    requires index < count
    decreases k
  {
    if k == 0 then index else NextIndex(Cycle(index, count, k - 1), count)
  }

  /** `k` steps, at most one round, advance the index by `k`, wrapping past the last
      position back to 0. */
  lemma {:induction false} CycleWraps(index: nat, count: nat, k: nat)
    requires index < count && k <= count
    ensures Cycle(index, count, k) == if index + k < count then index + k else index + k - count
    decreases k
  {
    if k > 0 {
      CycleWraps(index, count, k - 1);
    }
  }

  /** The number of selection steps from `index` to `j`. */
  function StepsTo(index: nat, j: nat, count: nat): nat
    requires index < count && j < count
  {
    if j >= index then j - index else j + count - index
  }

  /** Repeated selection reaches every piece within one round, and a full round of
      `count` steps comes back to where it started. */
  lemma CycleReturns(index: nat, count: nat)
    requires index < count
    ensures Cycle(index, count, count) == index
    ensures forall j :: 0 <= j < count ==> Cycle(index, count, StepsTo(index, j, count)) == j
  {
    CycleWraps(index, count, count);
    forall j | 0 <= j < count
      ensures Cycle(index, count, StepsTo(index, j, count)) == j
    {
      CycleWraps(index, count, StepsTo(index, j, count));
    }
  }

  /** The list of pieces a side can aim at: every enemy piece, in order, then its own
      selected piece. */
  function Targets(enemies: seq<ChessPiece>, own: ChessPiece): (r: seq<ChessPiece>)
    ensures |r| == |enemies| + 1
    ensures r[..|enemies|] == enemies && r[|enemies|] == own
    ensures forall p :: p in r <==> p in enemies || p == own
  {
    enemies + [own]
  }

  /** Unity's integer Random.Range(min, max): a value from min up to but excluding max,
      or min itself when the range is empty. */
  predicate InRandomRange(v: int, min: int, max: int)
    requires min <= max
  {
    if max == min then v == min else min <= v < max
  }

  /** The opponent's piece draw as written: Random.Range(0, count - 1). */
  predicate AsWrittenPieceChoice(v: int, count: nat)
    requires count > 0
  {
    InRandomRange(v, 0, count - 1)
  }

  /** With two pieces or more, the draw as written can never pick the last piece. */
  lemma AsWrittenSkipsLastPiece(count: nat)
    requires count >= 2
    ensures !AsWrittenPieceChoice(count - 1, count)
    ensures forall v :: AsWrittenPieceChoice(v, count) ==> 0 <= v < count - 1
  {
  }

  /** The piece draw the rest of the model uses: Random.Range(0, count), the same range
      as the opponent's target draw. */
  predicate PieceChoice(v: int, count: nat)
    requires count > 0
  {
    InRandomRange(v, 0, count)
  }

  /** The corrected draw can pick every piece, the last one included, and only those. */
  lemma PieceChoiceCoversAll(v: int, count: nat)
    requires count > 0
    ensures PieceChoice(v, count) <==> 0 <= v < count
    ensures PieceChoice(count - 1, count)
  {
  }

  /** Every draw the code as written can make is also a draw of the corrected range, so
      what is proved for the corrected draw covers every run of the code as written. */
  lemma AsWrittenWithinCorrected(v: int, count: nat)
    requires count > 0
    ensures AsWrittenPieceChoice(v, count) ==> PieceChoice(v, count)
  {
  }
}
