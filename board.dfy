/** Model of Assets/Scripts/Board.cs: the registry splitting the pieces found in the
    scene into the player's and the opponent's lists, each ordered by x. The scene
    query (FindObjectsOfType) arrives as a parameter; LINQ's OrderBy, a stable sort,
    is the function SortByX. */
module Board {
  import opened Pieces

  predicate SortedByX(s: seq<ChessPiece>) {
    forall i, j :: 0 <= i < j < |s| ==> s[i].x <= s[j].x
  }

  /** The pieces of `s` on one side, in their order in `s`. */
  function Side(s: seq<ChessPiece>, isPlayer: bool): seq<ChessPiece>
    decreases |s|
  {
    if s == [] then []
    else (if s[0].isPlayer == isPlayer then [s[0]] else []) + Side(s[1..], isPlayer)
  }

  /** The pieces of `s` standing at x, in their order in `s`. */
  function AtX(s: seq<ChessPiece>, x: int): seq<ChessPiece>
    decreases |s|
  {
    if s == [] then []
    else (if s[0].x == x then [s[0]] else []) + AtX(s[1..], x)
  }

  /** Inserts `p` in front of the first piece whose x is not smaller than its own. */
  function Insert(p: ChessPiece, s: seq<ChessPiece>): seq<ChessPiece>
    decreases |s|
  {
    if s == [] || p.x <= s[0].x then [p] + s
    else [s[0]] + Insert(p, s[1..])
  }

  /** OrderBy(piece => x): insertion sort, each piece going before the later ones with
      the same x. */
  function SortByX(s: seq<ChessPiece>): seq<ChessPiece>
    decreases |s|
  {
    if s == [] then [] else Insert(s[0], SortByX(s[1..]))
  }

  lemma {:induction false} InsertElements(p: ChessPiece, s: seq<ChessPiece>)
    ensures multiset(Insert(p, s)) == multiset(s) + multiset{p}
    ensures forall q :: q in Insert(p, s) <==> q == p || q in s
    decreases |s|
  {
    if s != [] && p.x > s[0].x {
      InsertElements(p, s[1..]);
      assert s == [s[0]] + s[1..];
    }
  }

  /** Every piece of a sorted list is at least as far right as its first one. */
  lemma SortedHead(s: seq<ChessPiece>, q: ChessPiece)
    requires SortedByX(s) && s != [] && q in s
    ensures s[0].x <= q.x
  {
    var k :| 0 <= k < |s| && s[k] == q;
    if k > 0 {
      assert s[0].x <= s[k].x;
    }
  }

  lemma SortedTail(s: seq<ChessPiece>)
    requires SortedByX(s) && s != []
    ensures SortedByX(s[1..])
  {
    forall i, j | 0 <= i < j < |s[1..]| ensures s[1..][i].x <= s[1..][j].x {
      assert s[1..][i] == s[i + 1] && s[1..][j] == s[j + 1];
    }
  }

  lemma SortedCons(q: ChessPiece, rest: seq<ChessPiece>)
    requires SortedByX(rest)
    requires forall e :: e in rest ==> q.x <= e.x
    ensures SortedByX([q] + rest)
  {
    var r := [q] + rest;
    forall i, j | 0 <= i < j < |r| ensures r[i].x <= r[j].x {
      assert r[j] == rest[j - 1];
      if i > 0 {
        assert r[i] == rest[i - 1];
      }
    }
  }

  lemma {:induction false} InsertSorted(p: ChessPiece, s: seq<ChessPiece>)
    requires SortedByX(s)
    ensures SortedByX(Insert(p, s))
    decreases |s|
  {
    if s == [] || p.x <= s[0].x {
      forall e | e in s ensures p.x <= e.x {
        SortedHead(s, e);
      }
      SortedCons(p, s);
    } else {
      var rest := Insert(p, s[1..]);
      SortedTail(s);
      InsertSorted(p, s[1..]);
      InsertElements(p, s[1..]);
      forall e | e in rest ensures s[0].x <= e.x {
        if e != p {
          assert e in s;
          SortedHead(s, e);
        }
      }
      SortedCons(s[0], rest);
    }
  }

  lemma AtXCons(q: ChessPiece, t: seq<ChessPiece>, x: int)
    ensures AtX([q] + t, x) == (if q.x == x then [q] else []) + AtX(t, x)
  {
    assert ([q] + t)[1..] == t;
  }

  /** Insertion puts `p` ahead of every piece that already stood at its x. */
  lemma {:induction false} InsertAtX(p: ChessPiece, s: seq<ChessPiece>, x: int)
    ensures AtX(Insert(p, s), x) == (if p.x == x then [p] else []) + AtX(s, x)
    decreases |s|
  {
    if s == [] || p.x <= s[0].x {
      AtXCons(p, s, x);
    } else {
      var t := Insert(p, s[1..]);
      InsertAtX(p, s[1..], x);
      AtXCons(s[0], t, x);
      AtXCons(s[0], s[1..], x);
      assert s == [s[0]] + s[1..];
      if p.x == x {
        assert s[0].x != x;
      }
    }
  }

  /** OrderBy sorts. */
  lemma {:induction false} SortByXSorted(s: seq<ChessPiece>)
    ensures SortedByX(SortByX(s))
    decreases |s|
  {
    if s != [] {
      SortByXSorted(s[1..]);
      InsertSorted(s[0], SortByX(s[1..]));
    }
  }

  /** OrderBy keeps every piece, each as often as it occurs. */
  lemma {:induction false} SortByXPermutes(s: seq<ChessPiece>)
    ensures multiset(SortByX(s)) == multiset(s)
    decreases |s|
  {
    if s != [] {
      SortByXPermutes(s[1..]);
      InsertElements(s[0], SortByX(s[1..]));
      assert s == [s[0]] + s[1..];
    }
  }

  /** OrderBy is stable: the pieces sharing an x keep their input order. */
  lemma {:induction false} SortByXStable(s: seq<ChessPiece>, x: int)
    ensures AtX(SortByX(s), x) == AtX(s, x)
    decreases |s|
  {
    if s != [] {
      SortByXStable(s[1..], x);
      InsertAtX(s[0], SortByX(s[1..]), x);
      AtXCons(s[0], s[1..], x);
      assert s == [s[0]] + s[1..];
    }
  }

  /** OrderBy sorts, keeps every piece, and is stable. */
  lemma SortByXCorrect(s: seq<ChessPiece>)
    ensures SortedByX(SortByX(s))
    ensures multiset(SortByX(s)) == multiset(s)
    ensures forall x :: AtX(SortByX(s), x) == AtX(s, x)
  {
    SortByXSorted(s);
    SortByXPermutes(s);
    forall x ensures AtX(SortByX(s), x) == AtX(s, x) {
      SortByXStable(s, x);
    }
  }

  lemma {:induction false} SideAppend(s: seq<ChessPiece>, p: ChessPiece, isPlayer: bool)
    ensures Side(s + [p], isPlayer) == Side(s, isPlayer) + (if p.isPlayer == isPlayer then [p] else [])
    decreases |s|
  {
    if s == [] {
      assert [p][1..] == [];
      assert s + [p] == [p];
    } else {
      SideAppend(s[1..], p, isPlayer);
      assert (s + [p])[0] == s[0];
      assert (s + [p])[1..] == s[1..] + [p];
      var head := if s[0].isPlayer == isPlayer then [s[0]] else [];
      var tail := if p.isPlayer == isPlayer then [p] else [];
      assert Side(s + [p], isPlayer) == head + (Side(s[1..], isPlayer) + tail);
      assert Side(s, isPlayer) == head + Side(s[1..], isPlayer);
    }
  }

  /** Splitting by side: each list holds exactly the pieces of its side, and the two
      together hold every piece once. */
  lemma {:induction false} SideMembers(s: seq<ChessPiece>, isPlayer: bool)
    ensures forall q :: q in Side(s, isPlayer) <==> q in s && q.isPlayer == isPlayer
    decreases |s|
  {
    if s != [] {
      SideMembers(s[1..], isPlayer);
      assert s == [s[0]] + s[1..];
    }
  }

  lemma {:induction false} SideCounts(s: seq<ChessPiece>)
    ensures multiset(Side(s, true)) + multiset(Side(s, false)) == multiset(s)
    ensures |Side(s, true)| + |Side(s, false)| == |s|
    decreases |s|
  {
    if s != [] {
      SideCounts(s[1..]);
      assert s == [s[0]] + s[1..];
    }
  }

  /** A side of a sorted list is sorted. */
  lemma {:induction false} SideSorted(s: seq<ChessPiece>, isPlayer: bool)
    requires SortedByX(s)
    ensures SortedByX(Side(s, isPlayer))
    decreases |s|
  {
    if s != [] {
      SortedTail(s);
      SideSorted(s[1..], isPlayer);
      if s[0].isPlayer == isPlayer {
        var rest := Side(s[1..], isPlayer);
        SideMembers(s[1..], isPlayer);
        forall e | e in rest ensures s[0].x <= e.x {
          assert e in s;
          SortedHead(s, e);
        }
        SortedCons(s[0], rest);
      }
    }
  }

  /** Choosing a side and then an x is choosing the x and then the side. */
  lemma {:induction false} SideAtX(s: seq<ChessPiece>, isPlayer: bool, x: int)
    ensures AtX(Side(s, isPlayer), x) == Side(AtX(s, x), isPlayer)
    decreases |s|
  {
    if s != [] {
      SideAtX(s[1..], isPlayer, x);
      var head := if s[0].isPlayer == isPlayer then [s[0]] else [];
      AtXAppend(head, Side(s[1..], isPlayer), x);
      var headX := if s[0].x == x then [s[0]] else [];
      SideAppendAll(headX, AtX(s[1..], x), isPlayer);
    }
  }

  lemma {:induction false} AtXAppend(a: seq<ChessPiece>, b: seq<ChessPiece>, x: int)
    ensures AtX(a + b, x) == AtX(a, x) + AtX(b, x)
    decreases |a|
  {
    if a != [] {
      AtXAppend(a[1..], b, x);
      assert (a + b)[1..] == a[1..] + b;
    } else {
      assert a + b == b;
    }
  }

  lemma {:induction false} SideAppendAll(a: seq<ChessPiece>, b: seq<ChessPiece>, isPlayer: bool)
    ensures Side(a + b, isPlayer) == Side(a, isPlayer) + Side(b, isPlayer)
    decreases |a|
  {
    if a != [] {
      SideAppendAll(a[1..], b, isPlayer);
      assert (a + b)[1..] == a[1..] + b;
    } else {
      assert a + b == b;
    }
  }

  /** What FindChessPieces stores, as properties: each list holds exactly its side's
      pieces, ordered by x, with pieces of equal x in scene order; nothing is lost or
      duplicated. */
  lemma FoundListsCorrect(found: seq<ChessPiece>)
    ensures var sorted := SortByX(found);
      var players := Side(sorted, true);
      var opponents := Side(sorted, false);
      && (forall q :: q in players <==> q in found && q.isPlayer)
      && (forall q :: q in opponents <==> q in found && !q.isPlayer)
      && multiset(players) + multiset(opponents) == multiset(found)
      && |players| + |opponents| == |found|
      && SortedByX(players) && SortedByX(opponents)
      && (forall x :: AtX(players, x) == Side(AtX(found, x), true))
      && (forall x :: AtX(opponents, x) == Side(AtX(found, x), false))
  {
    var sorted := SortByX(found);
    SortByXCorrect(found);
    SideMembers(sorted, true);
    SideMembers(sorted, false);
    SideCounts(sorted);
    SideSorted(sorted, true);
    SideSorted(sorted, false);
    forall q ensures q in sorted <==> q in found {
      assert q in sorted <==> q in multiset(sorted);
      assert q in found <==> q in multiset(found);
    }
    assert |sorted| == |found| by {
      assert |multiset(sorted)| == |multiset(found)|;
    }
    forall x, b: bool ensures AtX(Side(sorted, b), x) == Side(AtX(found, x), b) {
      SideAtX(sorted, b, x);
    }
  }

  class Board {
    var playerPieces: seq<ChessPiece>
    var opponentPieces: seq<ChessPiece>

    /** Each list holds pieces of its own side only. */
    ghost predicate Valid()
      reads this
    {
      && (forall q :: q in playerPieces ==> q.isPlayer)
      && (forall q :: q in opponentPieces ==> !q.isPlayer)
    }

    /** Awake: the lists start empty and FindChessPieces fills them. */
    constructor (found: seq<ChessPiece>)
      ensures Valid()
      ensures playerPieces == Side(SortByX(found), true)
      ensures opponentPieces == Side(SortByX(found), false)
    {
      playerPieces := [];
      opponentPieces := [];
      new;
      FindChessPieces(found);
    }

    /** Appends each found piece, in x order, to its side's list. */
    method FindChessPieces(found: seq<ChessPiece>)
      requires Valid()
      modifies this
      ensures Valid()
      ensures playerPieces == old(playerPieces) + Side(SortByX(found), true)
      ensures opponentPieces == old(opponentPieces) + Side(SortByX(found), false)
    {
      var chessPieces := SortByX(found);
      var i := 0;
      while i < |chessPieces|
        invariant 0 <= i <= |chessPieces|
        invariant Valid()
        invariant playerPieces == old(playerPieces) + Side(chessPieces[..i], true)
        invariant opponentPieces == old(opponentPieces) + Side(chessPieces[..i], false)
      {
        var chessPiece := chessPieces[i];
        assert chessPieces[..i + 1] == chessPieces[..i] + [chessPiece];
        SideAppend(chessPieces[..i], chessPiece, true);
        SideAppend(chessPieces[..i], chessPiece, false);
        if chessPiece.isPlayer {
          playerPieces := playerPieces + [chessPiece];
        } else {
          opponentPieces := opponentPieces + [chessPiece];
        }
        i := i + 1;
      }
      assert chessPieces[..i] == chessPieces;
    }

    /** The stored list itself, not a copy: only player pieces. */
    function GetPlayerPieces(): (r: seq<ChessPiece>)
      requires Valid()
      reads this
      ensures r == playerPieces
      ensures forall q :: q in r ==> q.isPlayer
    {
      playerPieces
    }

    /** The stored list itself, not a copy: only opponent pieces. */
    function GetOpponentPieces(): (r: seq<ChessPiece>)
      requires Valid()
      reads this
      ensures r == opponentPieces
      ensures forall q :: q in r ==> !q.isPlayer
    {
      opponentPieces
    }
  }
}
