/** The first revision of the rules engine (src/models/GoGame.model.ts): one game
    object holding the board size, the turn counter and every stone as a
    `[row, col, colour]` triple. */
module GoGameModel {
  import opened Wrappers
  import opened Sequences

  datatype Color = Black | White

  /** A stone as the source stores it: `[row, col, colour]`. */
  datatype Stone = Stone(row: int, col: int, color: Color)

  /** A board point `[i, j]`. */
  type Point = (int, int)

  // ---------------------------------------------------------------------------
  // Colours and turns

  /** `negateColor`: the other colour. */
  function NegateColor(color: Color): (r: Color)
    ensures r != color
  {
    if color == Black then White else Black
  }

  lemma NegateColorInvolution(color: Color)
    ensures NegateColor(NegateColor(color)) == color
  {
  }

  /** `currentColor`: Black plays on odd turns, White on even ones (negative
      turns included). */
  function CurrentColor(turn: int): (c: Color)
    ensures c == Black <==> turn % 2 == 1
    ensures c == White <==> turn % 2 == 0
  {
    if turn % 2 == 0 then White else Black
  }

  /** `opponentColor`: the colour that is not to play. */
  function OpponentColor(turn: int): (c: Color)
    ensures c != CurrentColor(turn)
    ensures NegateColor(c) == CurrentColor(turn)
  {
    NegateColor(CurrentColor(turn))
  }

  /** After `k` further turns the colour to play has flipped `k` times. */
  lemma {:induction false} TurnsAlternate(turn: int, k: nat)
    ensures CurrentColor(turn + k) == if k % 2 == 0 then CurrentColor(turn) else OpponentColor(turn)
    decreases k
  {
    if k > 0 {
      TurnsAlternate(turn, k - 1);
      assert (turn + k) % 2 != (turn + k - 1) % 2;
    }
  }

  // ---------------------------------------------------------------------------
  // Occupancy

  /** `findStone(i, j)`: the first stored stone on point (i, j), if any. */
  function FindStone(stones: seq<Stone>, i: int, j: int): (r: Option<Stone>)
    ensures r.Some? ==> r.value in stones && r.value.row == i && r.value.col == j
    ensures r.None? <==> forall s :: s in stones ==> !(s.row == i && s.col == j)
  {
    if stones == [] then None
    else if stones[0].row == i && stones[0].col == j then Some(stones[0])
    else FindStone(stones[1..], i, j)
  }

  /** `find` reports the earliest match in storage order. */
  lemma {:induction false} FindStoneFirst(stones: seq<Stone>, i: int, j: int, k: int)
    requires 0 <= k < |stones| && stones[k].row == i && stones[k].col == j
    requires forall m :: 0 <= m < k ==> !(stones[m].row == i && stones[m].col == j)
    ensures FindStone(stones, i, j) == Some(stones[k])
    decreases k
  {
    if k > 0 {
      FindStoneFirst(stones[1..], i, j, k - 1);
    }
  }

  /** No stone is stored on point `n`. */
  predicate IsEmpty(stones: seq<Stone>, n: Point)
  {
    FindStone(stones, n.0, n.1).None?
  }

  /** The stone `findStone` reports on `n` has colour `color`. */
  predicate HasColor(stones: seq<Stone>, n: Point, color: Color)
  {
    var s := FindStone(stones, n.0, n.1);
    s.Some? && s.value.color == color
  }

  /** The invariant every committed board keeps: a point carries at most one stone. */
  ghost predicate OneStonePerPoint(stones: seq<Stone>)
  {
    forall s, t :: s in stones && t in stones && s.row == t.row && s.col == t.col ==> s == t
  }

  lemma FindStoneOnUniqueBoard(stones: seq<Stone>, s: Stone)
    requires OneStonePerPoint(stones) && s in stones
    ensures FindStone(stones, s.row, s.col) == Some(s)
  {
  }

  // ---------------------------------------------------------------------------
  // Neighbourhood

  function Guarded(condition: bool, n: Point): seq<Point>
  {
    if condition then [n] else []
  }

  /** The neighbours the source inspects, in its order: up, left, down, right,
      each guarded by `i > 1`, `j > 1`, `i < size`, `j < size`. */
  function Neighbours(size: int, p: Point): (r: seq<Point>)
    ensures |r| <= 4
    ensures forall n :: n in r ==> Adjacent(p, n)
  {
    Guarded(p.0 > 1, (p.0 - 1, p.1)) + Guarded(p.1 > 1, (p.0, p.1 - 1)) +
    Guarded(p.0 < size, (p.0 + 1, p.1)) + Guarded(p.1 < size, (p.0, p.1 + 1))
  }

  predicate InBoard(size: int, p: Point)
  {
    1 <= p.0 <= size && 1 <= p.1 <= size
  }

  predicate Adjacent(p: Point, n: Point)
  {
    (n.0 == p.0 && (n.1 == p.1 - 1 || n.1 == p.1 + 1)) ||
    (n.1 == p.1 && (n.0 == p.0 - 1 || n.0 == p.0 + 1))
  }

  /** Every point the source inspects is orthogonally adjacent; for an in-board
      point they are exactly its in-board orthogonal neighbours. */
  lemma NeighboursAreOrthogonal(size: int, p: Point)
    ensures InBoard(size, p) ==> forall n :: n in Neighbours(size, p) <==> InBoard(size, n) && Adjacent(p, n)
  {
  }

  // ---------------------------------------------------------------------------
  // Group and liberty analysis

  /** The result of `computeGroupAndLiberties`. */
  datatype GroupScan = GroupScan(liberties: nat, stones: seq<Point>)

  /** The number of stored `color` stones whose point is not in `visited`: every
      exploration lowers it, so the flood fill terminates. */
  ghost function Unvisited(stones: seq<Stone>, color: Color, visited: seq<Point>): nat
  {
    if stones == [] then 0
    else
      (if stones[0].color == color && (stones[0].row, stones[0].col) !in visited then 1 else 0) +
      Unvisited(stones[1..], color, visited)
  }

  lemma {:induction false} UnvisitedMonotone(stones: seq<Stone>, color: Color, visited: seq<Point>, more: seq<Point>)
    requires forall x :: x in visited ==> x in more
    ensures Unvisited(stones, color, more) <= Unvisited(stones, color, visited)
    decreases |stones|
  {
    if stones != [] {
      UnvisitedMonotone(stones[1..], color, visited, more);
    }
  }

  lemma {:induction false} UnvisitedDrops(stones: seq<Stone>, color: Color, visited: seq<Point>, s: Stone)
    requires s in stones && s.color == color && (s.row, s.col) !in visited
    ensures Unvisited(stones, color, visited + [(s.row, s.col)]) < Unvisited(stones, color, visited)
    decreases |stones|
  {
    if stones[0] == s {
      UnvisitedMonotone(stones[1..], color, visited, visited + [(s.row, s.col)]);
    } else {
      UnvisitedDrops(stones[1..], color, visited, s);
    }
  }

  /** `computeGroupAndLiberties(i, j, targetColor, acc)`: visits `p`, then each
      inspected neighbour not yet in `acc`; an empty one adds 1 to the count (once
      per visited stone and empty neighbour), a `target` stone is explored in turn.
      The returned list starts with `acc` and `p`. */
  function ComputeGroupAndLiberties(size: int, stones: seq<Stone>, p: Point, target: Color, acc: seq<Point>): (r: GroupScan)
    ensures acc + [p] <= r.stones
    decreases Unvisited(stones, target, acc + [p]), 1, 0
  {
    assert Elements(acc + [p]) == Elements(acc) + {p};
    ScanNeighbours(size, stones, target, Neighbours(size, p), 0, acc + [p])
  }

  /** The four direction blocks of `computeGroupAndLiberties`, applied in order to
      the inspected neighbours `ns` with the running count and list. */
  function ScanNeighbours(size: int, stones: seq<Stone>, target: Color, ns: seq<Point>, liberties: nat, acc: seq<Point>): (r: GroupScan)
    ensures acc <= r.stones
    ensures r.liberties >= liberties
    decreases Unvisited(stones, target, acc), 0, |ns|
  {
    if ns == [] then GroupScan(liberties, acc)
    else
      var n := ns[0];
      if n in acc then ScanNeighbours(size, stones, target, ns[1..], liberties, acc)
      else
        match FindStone(stones, n.0, n.1)
        case None => ScanNeighbours(size, stones, target, ns[1..], liberties + 1, acc)
        case Some(s) =>
          if s.color == target then
            UnvisitedDrops(stones, target, acc, s);
            var group := ComputeGroupAndLiberties(size, stones, n, target, acc);
            UnvisitedMonotone(stones, target, acc, acc + group.stones);
            ScanNeighbours(size, stones, target, ns[1..], liberties + group.liberties, acc + group.stones)
          else
            ScanNeighbours(size, stones, target, ns[1..], liberties, acc)
  }

  /** Every `target` neighbour of `x` is in `group`. */
  ghost predicate ClosedAt(size: int, stones: seq<Stone>, target: Color, group: seq<Point>, x: Point)
  {
    forall n {:trigger n in Neighbours(size, x)} :: n in Neighbours(size, x) && HasColor(stones, n, target) ==> n in group
  }

  /** Every `target` neighbour of a group point outside `skip` is in the group. */
  ghost predicate Closed(size: int, stones: seq<Stone>, target: Color, group: seq<Point>, skip: set<Point>)
  {
    forall x {:trigger x in group} :: x in group && x !in skip ==> ClosedAt(size, stones, target, group, x)
  }

  /** Every empty neighbour of `x` lies in `known`. */
  ghost predicate FreeNeighboursAt(size: int, stones: seq<Stone>, x: Point, known: set<Point>)
  {
    forall m {:trigger m in Neighbours(size, x)} :: m in Neighbours(size, x) && IsEmpty(stones, m) ==> m in known
  }

  /** Every empty neighbour of a group point outside `skip` lies in `known`. */
  ghost predicate FreeNeighboursIn(size: int, stones: seq<Stone>, group: seq<Point>, skip: set<Point>, known: set<Point>)
  {
    forall x {:trigger x in group} :: x in group && x !in skip ==> FreeNeighboursAt(size, stones, x, known)
  }

  /** Some point of `group` has an empty neighbour: a liberty. */
  ghost predicate HasLiberty(size: int, stones: seq<Stone>, group: seq<Point>)
  {
    exists x, m :: x in group && m in Neighbours(size, x) && IsEmpty(stones, m)
  }

  /** One step of the scan that explores a `target` neighbour. */
  lemma ExploreUnfold(size: int, stones: seq<Stone>, target: Color, ns: seq<Point>, liberties: nat, acc: seq<Point>)
    requires ns != [] && ns[0] !in acc && HasColor(stones, ns[0], target)
    ensures var group := ComputeGroupAndLiberties(size, stones, ns[0], target, acc);
      ScanNeighbours(size, stones, target, ns, liberties, acc) ==
      ScanNeighbours(size, stones, target, ns[1..], liberties + group.liberties, acc + group.stones)
  {
  }

  /** The neighbours still to inspect after the first are neighbours of `p` too. */
  lemma RestNeighbours(size: int, ns: seq<Point>, p: Point)
    requires ns != [] && forall n :: n in ns ==> n in Neighbours(size, p)
    ensures forall n :: n in ns[1..] ==> n in Neighbours(size, p)
  {
    assert forall k :: k in ns[1..] ==> k in ns;
  }

  /** Exploring `n` lists `n`, and the recursion measure drops before and after it. */
  lemma ExploreMeasure(size: int, stones: seq<Stone>, target: Color, n: Point, acc: seq<Point>)
    requires n !in acc && HasColor(stones, n, target)
    ensures var group := ComputeGroupAndLiberties(size, stones, n, target, acc);
      && n in group.stones
      && Unvisited(stones, target, acc + [n]) < Unvisited(stones, target, acc)
      && Unvisited(stones, target, acc + group.stones) <= Unvisited(stones, target, acc)
  {
    var group := ComputeGroupAndLiberties(size, stones, n, target, acc);
    PrefixElements(acc + [n], group.stones);
    UnvisitedDrops(stones, target, acc, FindStone(stones, n.0, n.1).value);
    UnvisitedMonotone(stones, target, acc, acc + group.stones);
  }

  lemma ClosedJoin(size: int, stones: seq<Stone>, target: Color, r: seq<Point>, group: seq<Point>, acc: seq<Point>, n: Point)
    requires n !in acc && acc + group <= r
    requires Closed(size, stones, target, group, Elements(acc) - {n})
    requires Closed(size, stones, target, r, Elements(acc + group))
    ensures Closed(size, stones, target, r, Elements(acc))
  {
    PrefixElements(acc + group, r);
    forall x, m | x in r && x !in Elements(acc) && m in Neighbours(size, x) && HasColor(stones, m, target)
      ensures m in r
    {
      if x in group {
        assert x !in Elements(acc) - {n};
      } else {
        assert x !in Elements(acc + group);
      }
    }
  }

  lemma FreeNeighboursJoin(size: int, stones: seq<Stone>, r: seq<Point>, group: seq<Point>, acc: seq<Point>, n: Point)
    requires n !in acc && !IsEmpty(stones, n)
    requires forall m :: m in group && IsEmpty(stones, m) ==> m in acc
    requires FreeNeighboursIn(size, stones, group, Elements(acc) - {n}, Elements(acc) + {n})
    requires FreeNeighboursIn(size, stones, r, Elements(acc + group), Elements(acc + group))
    ensures FreeNeighboursIn(size, stones, r, Elements(acc), Elements(acc))
  {
    forall x, m | x in r && x !in Elements(acc) && m in Neighbours(size, x) && IsEmpty(stones, m)
      ensures m in Elements(acc)
    {
      if x in group {
        assert x !in Elements(acc) - {n};
      } else {
        assert x !in Elements(acc + group);
      }
    }
  }

  lemma {:induction false} ComputeClosed(size: int, stones: seq<Stone>, p: Point, target: Color, acc: seq<Point>)
    ensures Closed(size, stones, target, ComputeGroupAndLiberties(size, stones, p, target, acc).stones, Elements(acc) - {p})
    decreases Unvisited(stones, target, acc + [p]), 1, 0
  {
    var acc0, ns := acc + [p], Neighbours(size, p);
    assert Elements(acc0) == Elements(acc) + {p};
    var r := ComputeGroupAndLiberties(size, stones, p, target, acc);
    assert r == ScanNeighbours(size, stones, target, ns, 0, acc0);
    ScanClosed(size, stones, target, ns, 0, acc0);
    forall x, n | x in r.stones && x !in Elements(acc) - {p} && n in Neighbours(size, x) && HasColor(stones, n, target)
      ensures n in r.stones
    {
      if x != p { assert x !in Elements(acc0); }
    }
  }

  lemma {:induction false} ScanClosed(size: int, stones: seq<Stone>, target: Color, ns: seq<Point>, liberties: nat, acc: seq<Point>)
    ensures var r := ScanNeighbours(size, stones, target, ns, liberties, acc);
      (forall n :: n in ns && HasColor(stones, n, target) ==> n in r.stones) &&
      Closed(size, stones, target, r.stones, Elements(acc))
    decreases Unvisited(stones, target, acc), 0, |ns|
  {
    var r := ScanNeighbours(size, stones, target, ns, liberties, acc);
    if ns != [] {
      var n, rest := ns[0], ns[1..];
      if n in acc {
        ScanClosed(size, stones, target, rest, liberties, acc);
        PrefixElements(acc, r.stones);
      } else {
        match FindStone(stones, n.0, n.1)
        case None =>
          ScanClosed(size, stones, target, rest, liberties + 1, acc);
        case Some(s) =>
          if s.color == target {
            ScanClosedExplore(size, stones, target, ns, liberties, acc);
          } else {
            ScanClosed(size, stones, target, rest, liberties, acc);
          }
      }
    }
  }

  lemma {:induction false} ScanClosedExplore(size: int, stones: seq<Stone>, target: Color, ns: seq<Point>, liberties: nat, acc: seq<Point>)
    requires ns != [] && ns[0] !in acc && HasColor(stones, ns[0], target)
    ensures var r := ScanNeighbours(size, stones, target, ns, liberties, acc);
      (forall n :: n in ns && HasColor(stones, n, target) ==> n in r.stones) &&
      Closed(size, stones, target, r.stones, Elements(acc))
    decreases Unvisited(stones, target, acc), 0, |ns|, 0
  {
    var n, rest := ns[0], ns[1..];
    ExploreUnfold(size, stones, target, ns, liberties, acc);
    var group := ComputeGroupAndLiberties(size, stones, n, target, acc);
    var acc' := acc + group.stones;
    var r' := ScanNeighbours(size, stones, target, rest, liberties + group.liberties, acc');
    assert r' == ScanNeighbours(size, stones, target, ns, liberties, acc);
    assert Closed(size, stones, target, group.stones, Elements(acc) - {n}) &&
      Closed(size, stones, target, r'.stones, Elements(acc')) &&
      (forall m :: m in rest && HasColor(stones, m, target) ==> m in r'.stones) &&
      n in group.stones
    by {
      ExploreMeasure(size, stones, target, n, acc);
      ComputeClosed(size, stones, n, target, acc);
      ScanClosed(size, stones, target, rest, liberties + group.liberties, acc');
    }
    ClosedJoin(size, stones, target, r'.stones, group.stones, acc, n);
    PrefixElements(acc', r'.stones);
  }

  /** Apart from `acc` and the start point, the list holds only `target` stones. */
  lemma {:induction false} ComputeMembers(size: int, stones: seq<Stone>, p: Point, target: Color, acc: seq<Point>)
    ensures forall x :: x in ComputeGroupAndLiberties(size, stones, p, target, acc).stones ==>
      x in acc || x == p || HasColor(stones, x, target)
    decreases Unvisited(stones, target, acc + [p]), 1, 0
  {
    var acc0 := acc + [p];
    assert Elements(acc0) == Elements(acc) + {p};
    assert ComputeGroupAndLiberties(size, stones, p, target, acc) == ScanNeighbours(size, stones, target, Neighbours(size, p), 0, acc0);
    ScanMembers(size, stones, target, Neighbours(size, p), 0, acc0);
  }

  lemma {:induction false} ScanMembers(size: int, stones: seq<Stone>, target: Color, ns: seq<Point>, liberties: nat, acc: seq<Point>)
    ensures forall x :: x in ScanNeighbours(size, stones, target, ns, liberties, acc).stones ==>
      x in acc || HasColor(stones, x, target)
    decreases Unvisited(stones, target, acc), 0, |ns|
  {
    if ns != [] {
      var n, rest := ns[0], ns[1..];
      if n in acc {
        ScanMembers(size, stones, target, rest, liberties, acc);
      } else {
        match FindStone(stones, n.0, n.1)
        case None =>
          ScanMembers(size, stones, target, rest, liberties + 1, acc);
        case Some(s) =>
          if s.color == target {
            ScanMembersExplore(size, stones, target, ns, liberties, acc);
          } else {
            ScanMembers(size, stones, target, rest, liberties, acc);
          }
      }
    }
  }

  lemma {:induction false} ScanMembersExplore(size: int, stones: seq<Stone>, target: Color, ns: seq<Point>, liberties: nat, acc: seq<Point>)
    requires ns != [] && ns[0] !in acc && HasColor(stones, ns[0], target)
    ensures forall x :: x in ScanNeighbours(size, stones, target, ns, liberties, acc).stones ==>
      x in acc || HasColor(stones, x, target)
    decreases Unvisited(stones, target, acc), 0, |ns|, 0
  {
    var n, rest := ns[0], ns[1..];
    ExploreUnfold(size, stones, target, ns, liberties, acc);
    var group := ComputeGroupAndLiberties(size, stones, n, target, acc);
    var acc' := acc + group.stones;
    var r' := ScanNeighbours(size, stones, target, rest, liberties + group.liberties, acc');
    assert r' == ScanNeighbours(size, stones, target, ns, liberties, acc);
    assert (forall x :: x in group.stones ==> x in acc || x == n || HasColor(stones, x, target)) &&
      (forall x :: x in r'.stones ==> x in acc' || HasColor(stones, x, target))
    by {
      ExploreMeasure(size, stones, target, n, acc);
      ComputeMembers(size, stones, n, target, acc);
      ScanMembers(size, stones, target, rest, liberties + group.liberties, acc');
    }
    forall x | x in r'.stones && x !in acc ensures HasColor(stones, x, target) {
      if x !in group.stones {
        assert x !in acc';
      }
    }
  }

  /** What an exploration adds to the list are stones: an empty point is listed only if `acc` had it. */
  lemma ExploredPointsAreStones(size: int, stones: seq<Stone>, n: Point, target: Color, acc: seq<Point>)
    requires HasColor(stones, n, target)
    ensures forall m :: m in ComputeGroupAndLiberties(size, stones, n, target, acc).stones && IsEmpty(stones, m) ==> m in acc
  {
    ComputeMembers(size, stones, n, target, acc);
  }

  /** A zero count means every empty neighbour of a visited point was already known. */
  lemma {:induction false} ComputeNoLiberty(size: int, stones: seq<Stone>, p: Point, target: Color, acc: seq<Point>)
    requires ComputeGroupAndLiberties(size, stones, p, target, acc).liberties == 0
    ensures FreeNeighboursIn(size, stones, ComputeGroupAndLiberties(size, stones, p, target, acc).stones, Elements(acc) - {p}, Elements(acc) + {p})
    decreases Unvisited(stones, target, acc + [p]), 1, 0
  {
    var acc0, ns := acc + [p], Neighbours(size, p);
    var r := ComputeGroupAndLiberties(size, stones, p, target, acc);
    assert r == ScanNeighbours(size, stones, target, ns, 0, acc0);
    assert Elements(acc0) == Elements(acc) + {p};
    ScanNoLiberty(size, stones, target, ns, 0, acc0);
    forall x, m | x in r.stones && x !in Elements(acc) - {p} && m in Neighbours(size, x) && IsEmpty(stones, m)
      ensures m in Elements(acc) + {p}
    {
      if x != p { assert x !in Elements(acc0); }
    }
  }

  lemma {:induction false} ScanNoLiberty(size: int, stones: seq<Stone>, target: Color, ns: seq<Point>, liberties: nat, acc: seq<Point>)
    requires ScanNeighbours(size, stones, target, ns, liberties, acc).liberties == liberties
    ensures forall n :: n in ns && IsEmpty(stones, n) ==> n in acc
    ensures FreeNeighboursIn(size, stones, ScanNeighbours(size, stones, target, ns, liberties, acc).stones, Elements(acc), Elements(acc))
    decreases Unvisited(stones, target, acc), 0, |ns|
  {
    if ns != [] {
      var n, rest := ns[0], ns[1..];
      if n in acc {
        ScanNoLiberty(size, stones, target, rest, liberties, acc);
      } else {
        match FindStone(stones, n.0, n.1)
        case None =>
          assert false;
        case Some(s) =>
          if s.color == target {
            ScanNoLibertyExplore(size, stones, target, ns, liberties, acc);
          } else {
            ScanNoLiberty(size, stones, target, rest, liberties, acc);
          }
      }
    }
  }

  lemma {:induction false} ScanNoLibertyExplore(size: int, stones: seq<Stone>, target: Color, ns: seq<Point>, liberties: nat, acc: seq<Point>)
    requires ns != [] && ns[0] !in acc && HasColor(stones, ns[0], target)
    requires ScanNeighbours(size, stones, target, ns, liberties, acc).liberties == liberties
    ensures forall n :: n in ns && IsEmpty(stones, n) ==> n in acc
    ensures FreeNeighboursIn(size, stones, ScanNeighbours(size, stones, target, ns, liberties, acc).stones, Elements(acc), Elements(acc))
    decreases Unvisited(stones, target, acc), 0, |ns|, 0
  {
    var n, rest := ns[0], ns[1..];
    ExploreUnfold(size, stones, target, ns, liberties, acc);
    var group := ComputeGroupAndLiberties(size, stones, n, target, acc);
    var acc' := acc + group.stones;
    var r' := ScanNeighbours(size, stones, target, rest, liberties + group.liberties, acc');
    assert r' == ScanNeighbours(size, stones, target, ns, liberties, acc);
    assert group.liberties == 0;
    ExploredPointsAreStones(size, stones, n, target, acc);
    assert FreeNeighboursIn(size, stones, group.stones, Elements(acc) - {n}, Elements(acc) + {n}) &&
      FreeNeighboursIn(size, stones, r'.stones, Elements(acc'), Elements(acc')) &&
      (forall m :: m in rest && IsEmpty(stones, m) ==> m in acc')
    by {
      ExploreMeasure(size, stones, target, n, acc);
      ComputeNoLiberty(size, stones, n, target, acc);
      ScanNoLiberty(size, stones, target, rest, liberties, acc');
    }
    FreeNeighboursJoin(size, stones, r'.stones, group.stones, acc, n);
    forall m | m in ns && IsEmpty(stones, m) ensures m in acc {
      assert m != n && m in rest;
    }
  }

  /** A non-zero count was earned at some listed point with an empty inspected neighbour. */
  lemma {:induction false} ComputeWitness(size: int, stones: seq<Stone>, p: Point, target: Color, acc: seq<Point>)
    returns (x: Point, m: Point)
    requires ComputeGroupAndLiberties(size, stones, p, target, acc).liberties > 0
    ensures x in ComputeGroupAndLiberties(size, stones, p, target, acc).stones
    ensures m in Neighbours(size, x) && IsEmpty(stones, m)
    decreases Unvisited(stones, target, acc + [p]), 1, 0
  {
    var acc0 := acc + [p];
    assert ComputeGroupAndLiberties(size, stones, p, target, acc) == ScanNeighbours(size, stones, target, Neighbours(size, p), 0, acc0);
    x, m := ScanWitness(size, stones, target, Neighbours(size, p), 0, acc0, p);
  }

  /** `ns` are neighbours of the listed point `p` still to be inspected. */
  lemma {:induction false} ScanWitness(size: int, stones: seq<Stone>, target: Color, ns: seq<Point>, liberties: nat, acc: seq<Point>, p: Point)
    returns (x: Point, m: Point)
    requires p in acc && forall n :: n in ns ==> n in Neighbours(size, p)
    requires ScanNeighbours(size, stones, target, ns, liberties, acc).liberties > liberties
    ensures x in ScanNeighbours(size, stones, target, ns, liberties, acc).stones
    ensures m in Neighbours(size, x) && IsEmpty(stones, m)
    decreases Unvisited(stones, target, acc), 0, |ns|
  {
    var n, rest := ns[0], ns[1..];
    assert forall k :: k in rest ==> k in ns;
    if n in acc {
      x, m := ScanWitness(size, stones, target, rest, liberties, acc, p);
    } else {
      match FindStone(stones, n.0, n.1)
      case None =>
        var r := ScanNeighbours(size, stones, target, rest, liberties + 1, acc);
        PrefixElements(acc, r.stones);
        x, m := p, n;
      case Some(s) =>
        if s.color == target {
          x, m := ScanWitnessExplore(size, stones, target, ns, liberties, acc, p);
        } else {
          x, m := ScanWitness(size, stones, target, rest, liberties, acc, p);
        }
    }
  }

  lemma {:induction false} ScanWitnessExplore(size: int, stones: seq<Stone>, target: Color, ns: seq<Point>, liberties: nat, acc: seq<Point>, p: Point)
    returns (x: Point, m: Point)
    requires ns != [] && ns[0] !in acc && HasColor(stones, ns[0], target)
    requires p in acc && forall n :: n in ns ==> n in Neighbours(size, p)
    requires ScanNeighbours(size, stones, target, ns, liberties, acc).liberties > liberties
    ensures x in ScanNeighbours(size, stones, target, ns, liberties, acc).stones
    ensures m in Neighbours(size, x) && IsEmpty(stones, m)
    decreases Unvisited(stones, target, acc), 0, |ns|, 0
  {
    var n, rest := ns[0], ns[1..];
    ExploreUnfold(size, stones, target, ns, liberties, acc);
    var group := ComputeGroupAndLiberties(size, stones, n, target, acc);
    var acc' := acc + group.stones;
    var r' := ScanNeighbours(size, stones, target, rest, liberties + group.liberties, acc');
    assert r' == ScanNeighbours(size, stones, target, ns, liberties, acc);
    PrefixElements(acc', r'.stones);
    ExploreMeasure(size, stones, target, n, acc);
    if group.liberties > 0 {
      x, m := ComputeWitness(size, stones, n, target, acc);
      assert x in acc';
    } else {
      RestNeighbours(size, ns, p);
      x, m := ScanWitness(size, stones, target, rest, liberties, acc', p);
    }
  }

  // Every listed point outside the caller's accumulator was reached from an
  // earlier listed point, so the list is connected to the start.

  /** The point at index `k` is an inspected neighbour of a point listed before it. */
  ghost predicate ReachedAt(size: int, list: seq<Point>, k: int)
  {
    0 <= k < |list| && exists k' :: 0 <= k' < k && list[k] in Neighbours(size, list[k'])
  }

  /** Every listed point outside `base` was reached from an earlier one. */
  ghost predicate Reached(size: int, list: seq<Point>, base: set<Point>)
  {
    forall k :: 0 <= k < |list| && list[k] !in base ==> ReachedAt(size, list, k)
  }

  /** `path` walks through points of `group`, each step to an inspected neighbour. */
  ghost predicate IsChain(size: int, group: seq<Point>, path: seq<Point>)
  {
    && |path| > 0
    && (forall i :: 0 <= i < |path| ==> path[i] in group)
    && (forall i :: 0 < i < |path| ==> path[i] in Neighbours(size, path[i - 1]))
  }

  /** `to` is reached from `from` by a chain inside `group`. */
  ghost predicate Connected(size: int, group: seq<Point>, from: Point, to: Point)
  {
    exists path :: IsChain(size, group, path) && path[0] == from && path[|path| - 1] == to
  }

  /** Following the earlier points back from index `k` ends in `base`. */
  lemma {:induction false} ChainToBase(size: int, list: seq<Point>, base: set<Point>, k: int) returns (path: seq<Point>)
    requires Reached(size, list, base) && 0 <= k < |list|
    ensures IsChain(size, list, path) && path[0] in base && path[|path| - 1] == list[k]
    decreases k
  {
    if list[k] in base {
      path := [list[k]];
    } else {
      assert ReachedAt(size, list, k);
      var k' :| 0 <= k' < k && list[k] in Neighbours(size, list[k']);
      var prefix := ChainToBase(size, list, base, k');
      path := prefix + [list[k]];
      forall i | 0 < i < |path| ensures path[i] in Neighbours(size, path[i - 1]) {
        if i < |prefix| {
          assert path[i] == prefix[i] && path[i - 1] == prefix[i - 1];
        }
      }
      assert forall i :: 0 <= i < |prefix| ==> path[i] == prefix[i];
    }
  }

  /** A list extended by a later scan stays reached from the same base. */
  lemma ReachedJoin(size: int, a: seq<Point>, r: seq<Point>, base: set<Point>)
    requires a <= r && Reached(size, a, base) && Reached(size, r, Elements(a))
    ensures Reached(size, r, base)
  {
    forall k | 0 <= k < |r| && r[k] !in base ensures ReachedAt(size, r, k) {
      if k < |a| {
        assert r[k] == a[k] && ReachedAt(size, a, k);
        var k' :| 0 <= k' < k && a[k] in Neighbours(size, a[k']);
        assert r[k'] == a[k'];
      } else if r[k] in Elements(a) {
        var j :| 0 <= j < |a| && a[j] == r[k];
        assert ReachedAt(size, a, j);
        var k' :| 0 <= k' < j && a[j] in Neighbours(size, a[k']);
        assert r[k'] == a[k'];
      }
    }
  }

  /** Appending the group explored from the neighbour `n` of the listed point `p`. */
  lemma ReachedExtend(size: int, acc: seq<Point>, group: seq<Point>, n: Point, p: Point)
    requires p in acc && n in Neighbours(size, p)
    requires acc <= group && Reached(size, group, Elements(acc) + {n})
    ensures Reached(size, acc + group, Elements(acc))
  {
    var all := acc + group;
    var i :| 0 <= i < |acc| && acc[i] == p;
    forall k | 0 <= k < |all| && all[k] !in Elements(acc) ensures ReachedAt(size, all, k) {
      assert k >= |acc|;
      var g := k - |acc|;
      assert all[k] == group[g];
      assert all[i] == p;
      if group[g] != n {
        assert ReachedAt(size, group, g);
        var g' :| 0 <= g' < g && group[g] in Neighbours(size, group[g']);
        assert all[|acc| + g'] == group[g'];
      }
    }
  }

  /** `r` is, field by field, the scan of the neighbours `ns`. */
  ghost predicate IsScan(size: int, stones: seq<Stone>, target: Color, ns: seq<Point>, liberties: nat, acc: seq<Point>, r: GroupScan)
  {
    match r
    case GroupScan(count, list) =>
      var scan := ScanNeighbours(size, stones, target, ns, liberties, acc);
      count == scan.liberties && list == scan.stones
  }

  /** `group` is, field by field, the group explored from `n`. */
  ghost predicate IsGroupScan(size: int, stones: seq<Stone>, target: Color, n: Point, acc: seq<Point>, group: GroupScan)
  {
    match group
    case GroupScan(count, list) =>
      var scan := ComputeGroupAndLiberties(size, stones, n, target, acc);
      count == scan.liberties && list == scan.stones
  }

  lemma {:induction false} ComputeReached(size: int, stones: seq<Stone>, p: Point, target: Color, acc: seq<Point>)
    ensures Reached(size, ComputeGroupAndLiberties(size, stones, p, target, acc).stones, Elements(acc) + {p})
    decreases Unvisited(stones, target, acc + [p]), 1, 0, 0
  {
    var acc0 := acc + [p];
    assert ComputeGroupAndLiberties(size, stones, p, target, acc) == ScanNeighbours(size, stones, target, Neighbours(size, p), 0, acc0);
    assert Elements(acc0) == Elements(acc) + {p};
    ScanReached(size, stones, target, Neighbours(size, p), 0, acc0, p);
  }

  /** `ns` are neighbours of the listed point `p` still to be inspected. */
  lemma {:induction false} ScanReached(size: int, stones: seq<Stone>, target: Color, ns: seq<Point>, liberties: nat, acc: seq<Point>, p: Point)
    requires p in acc && forall n :: n in ns ==> n in Neighbours(size, p)
    ensures Reached(size, ScanNeighbours(size, stones, target, ns, liberties, acc).stones, Elements(acc))
    decreases Unvisited(stones, target, acc), 0, |ns|, 0
  {
    if ns != [] {
      var n, rest := ns[0], ns[1..];
      assert forall k :: k in rest ==> k in ns;
      if n in acc {
        ScanReached(size, stones, target, rest, liberties, acc, p);
      } else {
        match FindStone(stones, n.0, n.1)
        case None =>
          ScanReached(size, stones, target, rest, liberties + 1, acc, p);
        case Some(s) =>
          if s.color == target {
            ExploreUnfold(size, stones, target, ns, liberties, acc);
            var group := ComputeGroupAndLiberties(size, stones, n, target, acc);
            var r := ScanNeighbours(size, stones, target, rest, liberties + group.liberties, acc + group.stones);
            ScanReachedExplore(size, stones, target, n, rest, liberties, acc, p, group, r);
          } else {
            ScanReached(size, stones, target, rest, liberties, acc, p);
          }
      }
    }
  }

  /** The scan `r` of the neighbours `ns`, started from a list that is
      reached from `base`, is reached from `base` too. */
  lemma {:induction false} ScanReachedJoin(size: int, stones: seq<Stone>, target: Color, ns: seq<Point>, liberties: nat, acc: seq<Point>, p: Point, r: GroupScan, base: set<Point>)
    requires p in acc && forall n :: n in ns ==> n in Neighbours(size, p)
    requires IsScan(size, stones, target, ns, liberties, acc, r)
    requires Reached(size, acc, base)
    ensures Reached(size, r.stones, base)
    decreases Unvisited(stones, target, acc), 0, |ns|, 1
  {
    ScanReached(size, stones, target, ns, liberties, acc, p);
    ReachedJoin(size, acc, r.stones, base);
  }

  /** The scan goes on past the unlisted `target` neighbour `n` of `p`, whose
      group it has just explored; `group` and `r` name the two scans. */
  lemma {:induction false} ScanReachedExplore(size: int, stones: seq<Stone>, target: Color, n: Point, rest: seq<Point>, liberties: nat, acc: seq<Point>, p: Point, group: GroupScan, r: GroupScan)
    requires n !in acc && HasColor(stones, n, target)
    requires p in acc && n in Neighbours(size, p) && forall m :: m in rest ==> m in Neighbours(size, p)
    requires IsGroupScan(size, stones, target, n, acc, group)
    requires IsScan(size, stones, target, rest, liberties + group.liberties, acc + group.stones, r)
    ensures Reached(size, r.stones, Elements(acc))
    decreases Unvisited(stones, target, acc), 0, |rest|, 2
  {
    ExploredReached(size, stones, target, n, acc, p, group);
    ScanReachedJoin(size, stones, target, rest, liberties + group.liberties, acc + group.stones, p, r, Elements(acc));
  }

  /** The group `group` explored from the unlisted neighbour `n` of the listed
      point `p`, appended to the list, is reached from the list. */
  lemma {:induction false} ExploredReached(size: int, stones: seq<Stone>, target: Color, n: Point, acc: seq<Point>, p: Point, group: GroupScan)
    requires n !in acc && HasColor(stones, n, target)
    requires p in acc && n in Neighbours(size, p)
    requires IsGroupScan(size, stones, target, n, acc, group)
    ensures Reached(size, acc + group.stones, Elements(acc))
    ensures Unvisited(stones, target, acc + group.stones) <= Unvisited(stones, target, acc)
    decreases Unvisited(stones, target, acc), 0, 0, 0
  {
    ExploreMeasure(size, stones, target, n, acc);
    ComputeReached(size, stones, n, target, acc);
    ReachedExtend(size, acc, group.stones, n, p);
  }

  /** The analysis the source runs from an occupied point with an empty `acc`:
      the list starts at `p`, every other listed point holds a `target` stone,
      the list is closed under `target`-coloured adjacency, every listed point
      is joined to `p` by a chain of listed neighbours (so the list is exactly
      the group of `p` under the inspected-neighbour relation of the four guarded
      blocks, possibly with repetitions; that is the 4-connected group when every
      stone is on the board, see `EdgeGroupSplit`), and the count is 0 exactly
      when no listed point has an empty inspected neighbour. */
  lemma GroupAndLiberties(size: int, stones: seq<Stone>, p: Point, target: Color)
    requires !IsEmpty(stones, p)
    ensures var r := ComputeGroupAndLiberties(size, stones, p, target, []);
      && |r.stones| > 0 && r.stones[0] == p
      && (forall x :: x in r.stones && x != p ==> HasColor(stones, x, target))
      && (forall x, n :: x in r.stones && n in Neighbours(size, x) && HasColor(stones, n, target) ==> n in r.stones)
      && (forall x :: x in r.stones ==> Connected(size, r.stones, p, x))
      && (r.liberties == 0 <==> !HasLiberty(size, stones, r.stones))
  {
    var r := ComputeGroupAndLiberties(size, stones, p, target, []);
    ComputeReached(size, stones, p, target, []);
    forall x | x in r.stones ensures Connected(size, r.stones, p, x) {
      var k :| 0 <= k < |r.stones| && r.stones[k] == x;
      var path := ChainToBase(size, r.stones, Elements<Point>([]) + {p}, k);
    }
    ComputeClosed(size, stones, p, target, []);
    ComputeMembers(size, stones, p, target, []);
    if r.liberties == 0 {
      ComputeNoLiberty(size, stones, p, target, []);
    } else {
      var x, m := ComputeWitness(size, stones, p, target, []);
    }
    assert Elements<Point>([]) == {};
    assert [p] <= r.stones;
  }

  // ---------------------------------------------------------------------------
  // Captures

  /** The group the source would remove from neighbour `n`: an opponent group
      whose liberty count is 0. */
  function DeadGroupAt(size: int, stones: seq<Stone>, n: Point, opponent: Color): (r: seq<Point>)
    ensures r != [] <==>
      (HasColor(stones, n, opponent) && !HasLiberty(size, stones, ComputeGroupAndLiberties(size, stones, n, opponent, []).stones))
    ensures r != [] ==> r[0] == n
  {
    if HasColor(stones, n, opponent) then
      var group := ComputeGroupAndLiberties(size, stones, n, opponent, []);
      GroupAndLiberties(size, stones, n, opponent);
      if group.liberties == 0 then group.stones else []
    else []
  }

  function DeadGroups(size: int, stones: seq<Stone>, ns: seq<Point>, opponent: Color): seq<Point>
  {
    if ns == [] then [] else DeadGroupAt(size, stones, ns[0], opponent) + DeadGroups(size, stones, ns[1..], opponent)
  }

  /** `stonesToRemove`: the dead groups next to `p`, up, left, down, right. */
  function StonesToRemove(size: int, stones: seq<Stone>, p: Point, opponent: Color): (r: seq<Point>)
    ensures forall x :: x in r <==> exists n :: n in Neighbours(size, p) && x in DeadGroupAt(size, stones, n, opponent)
  {
    DeadGroupsMembers(size, stones, Neighbours(size, p), opponent);
    DeadGroups(size, stones, Neighbours(size, p), opponent)
  }

  /** The final `filter`: drop every stone whose point is listed. */
  function RemovePoints(stones: seq<Stone>, points: seq<Point>): (r: seq<Stone>)
    ensures forall s :: s in r <==> s in stones && (s.row, s.col) !in points
    ensures forall s :: multiset(r)[s] == if (s.row, s.col) in points then 0 else multiset(stones)[s]
    ensures IsSubsequence(r, stones)
  {
    Filter(stones, (s: Stone) => (s.row, s.col) !in points)
  }

  /** The filter decides the first stone, then goes on with the rest. */
  lemma RemovePointsCons(stones: seq<Stone>, points: seq<Point>)
    requires stones != []
    ensures RemovePoints(stones, points) ==
      (if (stones[0].row, stones[0].col) in points then [] else [stones[0]]) + RemovePoints(stones[1..], points)
  {
  }

  /** A filter that matches no stone keeps the list as it is. */
  lemma {:induction false} RemovePointsKeep(stones: seq<Stone>, points: seq<Point>)
    requires forall s :: s in stones ==> (s.row, s.col) !in points
    ensures RemovePoints(stones, points) == stones
    decreases |stones|
  {
    if stones != [] {
      RemovePointsCons(stones, points);
      RemovePointsKeep(stones[1..], points);
      assert stones == [stones[0]] + stones[1..];
    }
  }

  /** The stones left by `removeDeadStonesAroundPosition(p)`. */
  function AfterCaptures(size: int, stones: seq<Stone>, p: Point, opponent: Color): (r: seq<Stone>)
    ensures IsSubsequence(r, stones)
    ensures forall s :: s in stones && s !in r ==> HasColor(stones, (s.row, s.col), opponent)
  {
    CapturedGroups(size, stones, p, opponent);
    RemovePoints(stones, StonesToRemove(size, stones, p, opponent))
  }

  /** A point is removed exactly when it lies in the dead group found from one of
      the inspected neighbours. */
  lemma {:induction false} DeadGroupsMembers(size: int, stones: seq<Stone>, ns: seq<Point>, opponent: Color)
    ensures forall x :: x in DeadGroups(size, stones, ns, opponent) <==>
      exists n :: n in ns && x in DeadGroupAt(size, stones, n, opponent)
    decreases |ns|
  {
    if ns != [] {
      DeadGroupsMembers(size, stones, ns[1..], opponent);
      forall x | exists n :: n in ns && x in DeadGroupAt(size, stones, n, opponent)
        ensures x in DeadGroups(size, stones, ns, opponent)
      {
        var n :| n in ns && x in DeadGroupAt(size, stones, n, opponent);
        if n != ns[0] {
          assert n in ns[1..];
        }
      }
    }
  }

  /** The dead groups of a list of points concatenate. */
  lemma {:induction false} DeadGroupsAppend(size: int, stones: seq<Stone>, a: seq<Point>, b: seq<Point>, opponent: Color)
    ensures DeadGroups(size, stones, a + b, opponent) == DeadGroups(size, stones, a, opponent) + DeadGroups(size, stones, b, opponent)
    decreases |a|
  {
    if a == [] {
      assert a + b == b;
    } else {
      assert (a + b)[1..] == a[1..] + b;
      DeadGroupsAppend(size, stones, a[1..], b, opponent);
    }
  }

  /** The dead group behind a guarded neighbour, or nothing if the guard fails. */
  function DeadIf(size: int, stones: seq<Stone>, condition: bool, n: Point, opponent: Color): seq<Point>
  {
    if condition then DeadGroupAt(size, stones, n, opponent) else []
  }

  /** One guarded block of `removeDeadStonesAroundPosition`, spelled out. */
  lemma DeadIfUnfold(size: int, stones: seq<Stone>, condition: bool, n: Point, opponent: Color)
    ensures DeadIf(size, stones, condition, n, opponent) ==
      if condition && HasColor(stones, n, opponent) && ComputeGroupAndLiberties(size, stones, n, opponent, []).liberties == 0
      then ComputeGroupAndLiberties(size, stones, n, opponent, []).stones
      else []
  {
  }

  lemma DeadGroupsGuarded(size: int, stones: seq<Stone>, condition: bool, n: Point, opponent: Color)
    ensures DeadGroups(size, stones, Guarded(condition, n), opponent) == DeadIf(size, stones, condition, n, opponent)
  {
    if condition {
      assert DeadGroups(size, stones, [n], opponent) == DeadGroupAt(size, stones, n, opponent) + DeadGroups(size, stones, [], opponent);
    }
  }

  /** `stonesToRemove` collects the groups up, left, down and right, in that order. */
  lemma StonesToRemoveInOrder(size: int, stones: seq<Stone>, i: int, j: int, opponent: Color)
    ensures StonesToRemove(size, stones, (i, j), opponent) ==
      DeadIf(size, stones, i > 1, (i - 1, j), opponent) + DeadIf(size, stones, j > 1, (i, j - 1), opponent) +
      DeadIf(size, stones, i < size, (i + 1, j), opponent) + DeadIf(size, stones, j < size, (i, j + 1), opponent)
  {
    var g1, g2, g3, g4 := Guarded(i > 1, (i - 1, j)), Guarded(j > 1, (i, j - 1)), Guarded(i < size, (i + 1, j)), Guarded(j < size, (i, j + 1));
    var d1, d2, d3, d4 := DeadIf(size, stones, i > 1, (i - 1, j), opponent), DeadIf(size, stones, j > 1, (i, j - 1), opponent),
      DeadIf(size, stones, i < size, (i + 1, j), opponent), DeadIf(size, stones, j < size, (i, j + 1), opponent);
    assert Neighbours(size, (i, j)) == g1 + g2 + g3 + g4;
    assert DeadGroups(size, stones, g1 + g2, opponent) == d1 + d2 by {
      DeadGroupsAppend(size, stones, g1, g2, opponent);
      DeadGroupsGuarded(size, stones, i > 1, (i - 1, j), opponent);
      DeadGroupsGuarded(size, stones, j > 1, (i, j - 1), opponent);
    }
    assert DeadGroups(size, stones, g1 + g2 + g3, opponent) == d1 + d2 + d3 by {
      DeadGroupsAppend(size, stones, g1 + g2, g3, opponent);
      DeadGroupsGuarded(size, stones, i < size, (i + 1, j), opponent);
    }
    assert DeadGroups(size, stones, g1 + g2 + g3 + g4, opponent) == d1 + d2 + d3 + d4 by {
      DeadGroupsAppend(size, stones, g1 + g2 + g3, g4, opponent);
      DeadGroupsGuarded(size, stones, j < size, (i, j + 1), opponent);
    }
  }

  /** The four blocks, collected in order and filtered out, are the captures around (i, j). */
  lemma CollectedBlocks(size: int, stones: seq<Stone>, i: int, j: int, opponent: Color,
                        up: seq<Point>, left: seq<Point>, down: seq<Point>, all: seq<Point>)
    requires up == DeadIf(size, stones, i > 1, (i - 1, j), opponent)
    requires left == up + DeadIf(size, stones, j > 1, (i, j - 1), opponent)
    requires down == left + DeadIf(size, stones, i < size, (i + 1, j), opponent)
    requires all == down + DeadIf(size, stones, j < size, (i, j + 1), opponent)
    ensures RemovePoints(stones, all) == AfterCaptures(size, stones, (i, j), opponent)
  {
    StonesToRemoveInOrder(size, stones, i, j, opponent);
    assert all == StonesToRemove(size, stones, (i, j), opponent);
  }

  /** A chain inside a group is a chain inside any list holding the group. */
  lemma ConnectedWithin(size: int, group: seq<Point>, larger: seq<Point>, from: Point, to: Point)
    requires Connected(size, group, from, to) && forall y :: y in group ==> y in larger
    ensures Connected(size, larger, from, to)
  {
    var path :| IsChain(size, group, path) && path[0] == from && path[|path| - 1] == to;
    assert IsChain(size, larger, path);
  }

  /** Exactly the whole, liberty-less opponent groups next to `p` are captured,
      where a group is taken under the inspected-neighbour relation (the
      4-connected group when every stone is on the board, see `EdgeGroupSplit`):
      every removed point holds an opponent stone, is joined by removed inspected
      neighbours to an inspected neighbour of `p`, has no empty inspected
      neighbour, and has its inspected opponent-coloured neighbours removed with
      it; and the whole group of every inspected opponent neighbour of `p`
      without a liberty is removed. */
  lemma CapturedGroups(size: int, stones: seq<Stone>, p: Point, opponent: Color)
    ensures forall x :: x in StonesToRemove(size, stones, p, opponent) ==>
      && HasColor(stones, x, opponent)
      && (exists n :: n in Neighbours(size, p) && Connected(size, StonesToRemove(size, stones, p, opponent), n, x))
      && (forall m :: m in Neighbours(size, x) ==> !IsEmpty(stones, m))
      && (forall m :: m in Neighbours(size, x) && HasColor(stones, m, opponent) ==> m in StonesToRemove(size, stones, p, opponent))
    ensures forall n ::
      (n in Neighbours(size, p) && HasColor(stones, n, opponent) &&
       !HasLiberty(size, stones, ComputeGroupAndLiberties(size, stones, n, opponent, []).stones)) ==>
      forall x :: x in ComputeGroupAndLiberties(size, stones, n, opponent, []).stones ==> x in StonesToRemove(size, stones, p, opponent)
  {
    var ns := Neighbours(size, p);
    var removed := StonesToRemove(size, stones, p, opponent);
    DeadGroupsMembers(size, stones, ns, opponent);
    forall x | x in removed
      ensures HasColor(stones, x, opponent)
      ensures exists n :: n in ns && Connected(size, removed, n, x)
      ensures forall m :: m in Neighbours(size, x) ==> !IsEmpty(stones, m)
      ensures forall m :: m in Neighbours(size, x) && HasColor(stones, m, opponent) ==> m in removed
    {
      var n :| n in ns && x in DeadGroupAt(size, stones, n, opponent);
      GroupAndLiberties(size, stones, n, opponent);
      ConnectedWithin(size, DeadGroupAt(size, stones, n, opponent), removed, n, x);
      forall m | m in Neighbours(size, x) && HasColor(stones, m, opponent)
        ensures m in removed
      {
        assert m in DeadGroupAt(size, stones, n, opponent);
      }
    }
    forall n | n in ns && HasColor(stones, n, opponent) &&
      !HasLiberty(size, stones, ComputeGroupAndLiberties(size, stones, n, opponent, []).stones)
      ensures forall x :: x in ComputeGroupAndLiberties(size, stones, n, opponent, []).stones ==> x in removed
    {
      GroupAndLiberties(size, stones, n, opponent);
    }
  }

  /** Capturing removes exactly the stones on listed points, keeps the order of the
      rest, and on a board with one stone per point removes only opponent stones. */
  lemma CapturesRemoveOpponentStones(size: int, stones: seq<Stone>, p: Point, opponent: Color)
    requires OneStonePerPoint(stones)
    ensures var after := AfterCaptures(size, stones, p, opponent);
      && IsSubsequence(after, stones)
      && OneStonePerPoint(after)
      && (forall s :: s in stones && s !in after ==> s.color == opponent)
      && (forall s :: s in stones && s.color != opponent ==> s in after)
      && (forall s: Stone :: s.color != opponent ==> multiset(after)[s] == multiset(stones)[s])
  {
    var after := AfterCaptures(size, stones, p, opponent);
    CapturedGroups(size, stones, p, opponent);
    forall s | s in stones && s !in after ensures s.color == opponent {
      FindStoneOnUniqueBoard(stones, s);
    }
  }

  /** Three black stones around the empty corner (2,2) of a 2x2 board. */
  const Corner: seq<Stone> := [Stone(1, 1, Black), Stone(1, 2, Black), Stone(2, 1, Black)]

  /** In `SharedLibertyCountedTwice`, exploring (2,1) from (1,1) finds (2,2) once. */
  lemma CornerBelow()
    ensures ComputeGroupAndLiberties(2, Corner, (2, 1), Black, [(1, 1)]) == GroupScan(1, [(1, 1), (2, 1)])
  {
    var b: seq<Point> := [(1, 1), (2, 1)];
    assert [(1, 1)] + [(2, 1)] == b;
    assert Neighbours(2, (2, 1)) == [(1, 1), (2, 2)];
    assert ScanNeighbours(2, Corner, Black, [(2, 2)], 0, b) == GroupScan(1, b);
  }

  /** In `SharedLibertyCountedTwice`, exploring (1,2) afterwards finds (2,2) again. */
  lemma CornerRight()
    ensures ComputeGroupAndLiberties(2, Corner, (1, 2), Black, [(1, 1), (1, 1), (2, 1)])
      == GroupScan(1, [(1, 1), (1, 1), (2, 1), (1, 2)])
  {
    var d: seq<Point> := [(1, 1), (1, 1), (2, 1), (1, 2)];
    assert [(1, 1), (1, 1), (2, 1)] + [(1, 2)] == d;
    assert Neighbours(2, (1, 2)) == [(1, 1), (2, 2)];
    assert ScanNeighbours(2, Corner, Black, [(2, 2)], 0, d) == GroupScan(1, d);
  }

  /** The count goes up once per visited stone and empty neighbour, so an empty
      point shared by two stones of the group counts twice: the group of the
      black stones in `Corner` has a count of 2 although (2,2) is the only
      empty point of the board. */
  lemma SharedLibertyCountedTwice()
    ensures ComputeGroupAndLiberties(2, Corner, (1, 1), Black, []).liberties == 2
  {
    var a: seq<Point> := [(1, 1)];
    var c: seq<Point> := [(1, 1), (1, 1), (2, 1)];
    assert [] + [(1, 1)] == a;
    assert a + [(1, 1), (2, 1)] == c;
    assert Neighbours(2, (1, 1)) == [(2, 1), (1, 2)];
    CornerBelow();
    CornerRight();
    assert ScanNeighbours(2, Corner, Black, [(1, 2)], 1, c).liberties == 2;
  }

  // ---------------------------------------------------------------------------
  // Placing a stone

  /** What `addStone` does with a move. */
  datatype MoveResult = Occupied | Suicide | Placed(stones: seq<Stone>)

  /** The board of the draft after `rawAddStone` and `removeDeadStonesAroundPosition`. */
  function DraftAfterMove(size: int, stones: seq<Stone>, turn: int, p: Point): seq<Stone>
  {
    AfterCaptures(size, stones + [Stone(p.0, p.1, CurrentColor(turn))], p, OpponentColor(turn))
  }

  /** `addStone(position)`: refuse an occupied point (judged on the committed
      board), refuse a move whose own group has no liberty once the captures
      are made (judged on the draft), otherwise commit the draft. */
  function Move(size: int, stones: seq<Stone>, turn: int, p: Point): (r: MoveResult)
    ensures r == Occupied <==> !IsEmpty(stones, p)
    ensures r.Placed? ==> r.stones == DraftAfterMove(size, stones, turn, p)
  {
    if !IsEmpty(stones, p) then Occupied
    else
      var draft := DraftAfterMove(size, stones, turn, p);
      if ComputeGroupAndLiberties(size, draft, p, CurrentColor(turn), []).liberties == 0 then Suicide
      else Placed(draft)
  }

  /** On an empty point the new stone is the one the draft finds there, so it is never captured. */
  lemma NewStoneSurvives(size: int, stones: seq<Stone>, turn: int, p: Point)
    requires IsEmpty(stones, p)
    ensures var stone := Stone(p.0, p.1, CurrentColor(turn));
      && stone in DraftAfterMove(size, stones, turn, p)
      && FindStone(DraftAfterMove(size, stones, turn, p), p.0, p.1) == Some(stone)
  {
    var stone := Stone(p.0, p.1, CurrentColor(turn));
    var placed := stones + [stone];
    FindStoneFirst(placed, p.0, p.1, |stones|);
    CapturedGroups(size, placed, p, OpponentColor(turn));
    var draft := DraftAfterMove(size, stones, turn, p);
    assert stone in draft;
    var found := FindStone(draft, p.0, p.1);
    assert found.value in placed;
  }

  /** A committed move keeps the new stone, removes only opponent stones (keeping
      the order of the rest), keeps one stone per point, and leaves the new
      stone's group with a liberty; a refused suicide is exactly a move whose
      group would have none. */
  lemma MoveOutcome(size: int, stones: seq<Stone>, turn: int, p: Point)
    requires OneStonePerPoint(stones)
    ensures var r := Move(size, stones, turn, p);
      var stone := Stone(p.0, p.1, CurrentColor(turn));
      var draft := DraftAfterMove(size, stones, turn, p);
      && (r == Suicide <==> IsEmpty(stones, p) && !HasLiberty(size, draft, ComputeGroupAndLiberties(size, draft, p, CurrentColor(turn), []).stones))
      && (r.Placed? ==>
        && stone in r.stones
        && IsSubsequence(r.stones, stones + [stone])
        && (forall s :: s in stones && s !in r.stones ==> s.color == OpponentColor(turn))
        && (forall s :: s in stones && s.color == CurrentColor(turn) ==> s in r.stones)
        && OneStonePerPoint(r.stones)
        && HasLiberty(size, r.stones, ComputeGroupAndLiberties(size, r.stones, p, CurrentColor(turn), []).stones))
  {
    if IsEmpty(stones, p) {
      var stone := Stone(p.0, p.1, CurrentColor(turn));
      var placed := stones + [stone];
      assert OneStonePerPoint(placed);
      CapturesRemoveOpponentStones(size, placed, p, OpponentColor(turn));
      NewStoneSurvives(size, stones, turn, p);
      var draft := DraftAfterMove(size, stones, turn, p);
      GroupAndLiberties(size, draft, p, CurrentColor(turn));
    }
  }

  /** One of the four blocks of `removeDeadStonesAroundPosition` (they differ only
      in the guard and the neighbour): if the guard holds and the neighbour holds
      an opponent stone whose group has a count of 0, append that group. */
  method AppendDeadGroup(size: int, board: seq<Stone>, condition: bool, n: Point, opponent: Color, stonesToRemove: seq<Point>)
    returns (r: seq<Point>)
    ensures r == stonesToRemove + DeadIf(size, board, condition, n, opponent)
    ensures (condition && HasColor(board, n, opponent) &&
             !HasLiberty(size, board, ComputeGroupAndLiberties(size, board, n, opponent, []).stones)) ==>
      forall x :: x in ComputeGroupAndLiberties(size, board, n, opponent, []).stones ==> x in r
  {
    r := stonesToRemove;
    if condition && HasColor(board, n, opponent) {
      var group := ComputeGroupAndLiberties(size, board, n, opponent, []);
      if group.liberties == 0 {
        r := r + group.stones;
      }
    }
    DeadIfUnfold(size, board, condition, n, opponent);
  }

  /** `addStone` checks occupancy and liberties but not the board's bounds: on
      an empty board of size 2 or more, black may play the off-board point
      (0, 1), which inspects the in-board point (1, 1) and counts it as a
      liberty. */
  lemma OffBoardMoveAccepted(size: int)
    requires size >= 2
    ensures !InBoard(size, (0, 1)) && Move(size, [], 1, (0, 1)).Placed?
  {
    var stone := Stone(0, 1, Black);
    assert [] + [stone] == [stone];
    CapturesRemoveOpponentStones(size, [stone], (0, 1), White);
    var draft := DraftAfterMove(size, [], 1, (0, 1));
    assert stone in draft;
    assert draft == [stone];
    assert Neighbours(size, (0, 1)) == [(1, 1), (0, 2)];
    assert [] + [(0, 1)] == [(0, 1)];
    assert ComputeGroupAndLiberties(size, draft, (0, 1), Black, []).liberties >= 1;
  }

  /** Black (1,1) and White (2,1) on a 2x2 board, after Black's off-board move (0,1). */
  const EdgeBoard: seq<Stone> := [Stone(1, 1, Black), Stone(2, 1, White), Stone(0, 1, Black)]

  /** The draft of White's move (1,2) on `EdgeBoard`, before captures. */
  const EdgeCapture: seq<Stone> := [Stone(1, 1, Black), Stone(2, 1, White), Stone(0, 1, Black), Stone(1, 2, White)]

  /** `EdgeCapture` without (1,1). */
  const EdgeAfter: seq<Stone> := [Stone(2, 1, White), Stone(0, 1, Black), Stone(1, 2, White)]

  /** Black's search from (1,1), entered from (0,1), sees the white (2,1) and
      the empty (1,2). */
  lemma EdgeStoneBelow()
    ensures ComputeGroupAndLiberties(2, EdgeBoard, (1, 1), Black, [(0, 1)]) == GroupScan(1, [(0, 1), (1, 1)])
  {
    var inner: seq<Point> := [(0, 1), (1, 1)];
    assert [(0, 1)] + [(1, 1)] == inner;
    assert Neighbours(2, (1, 1)) == [(2, 1), (1, 2)];
    assert FindStone(EdgeBoard, 2, 1) == Some(Stone(2, 1, White));
    assert FindStone(EdgeBoard, 1, 2) == None;
    assert ScanNeighbours(2, EdgeBoard, Black, [(1, 2)], 0, inner) == GroupScan(1, inner);
  }

  /** From (0,1) black's search inspects (1,1) below, which sees only white
      stones and the empty (1,2); then (0,2) is counted too. */
  lemma EdgeStoneScan()
    ensures ComputeGroupAndLiberties(2, EdgeBoard, (0, 1), Black, []) == GroupScan(2, [(0, 1), (0, 1), (1, 1)])
  {
    EdgeStoneBelow();
    var outer: seq<Point> := [(0, 1), (0, 1), (1, 1)];
    assert FindStone(EdgeBoard, 0, 2) == None;
    assert FindStone(EdgeBoard, 1, 1) == Some(Stone(1, 1, Black));
    assert ScanNeighbours(2, EdgeBoard, Black, [(0, 2)], 1, outer) == GroupScan(2, outer);
    assert [(0, 1)] + [(0, 1), (1, 1)] == outer;
    assert Neighbours(2, (0, 1)) == [(1, 1), (0, 2)];
    assert [] + [(0, 1)] == [(0, 1)];
  }

  /** Black's off-board move (0,1) captures nothing. */
  lemma EdgeStoneDraft()
    ensures DraftAfterMove(2, [Stone(1, 1, Black), Stone(2, 1, White)], 3, (0, 1)) == EdgeBoard
  {
    assert [Stone(1, 1, Black), Stone(2, 1, White)] + [Stone(0, 1, Black)] == EdgeBoard;
    assert Neighbours(2, (0, 1)) == [(1, 1), (0, 2)];
    assert DeadGroupAt(2, EdgeBoard, (1, 1), White) == [];
    assert DeadGroupAt(2, EdgeBoard, (0, 2), White) == [];
    assert DeadGroups(2, EdgeBoard, [(0, 2)], White) == [];
    assert StonesToRemove(2, EdgeBoard, (0, 1), White) == [];
    RemovePointsKeep(EdgeBoard, []);
  }

  /** Black's off-board move (0,1) next to its stone (1,1) is accepted. */
  lemma EdgeStoneAccepted()
    ensures Move(2, [Stone(1, 1, Black), Stone(2, 1, White)], 3, (0, 1)) == Placed(EdgeBoard)
  {
    EdgeStoneDraft();
    EdgeStoneScan();
  }

  /** On `EdgeCapture`, both neighbours (2,1) and (1,2) that a search from (1,1)
      inspects hold white stones. */
  lemma EdgeCornerScan()
    ensures ScanNeighbours(2, EdgeCapture, Black, [(2, 1), (1, 2)], 0, [(1, 1)]) == GroupScan(0, [(1, 1)])
  {
    assert FindStone(EdgeCapture, 2, 1) == Some(Stone(2, 1, White));
    assert FindStone(EdgeCapture, 1, 2) == Some(Stone(1, 2, White));
    assert ScanNeighbours(2, EdgeCapture, Black, [(1, 2)], 0, [(1, 1)]) == GroupScan(0, [(1, 1)]);
  }

  /** On `EdgeCapture`, the search from (1,1) never looks up at (0,1): the
      guard `i > 1` skips it, and both other neighbours are white. */
  lemma EdgeCornerAlone()
    ensures ComputeGroupAndLiberties(2, EdgeCapture, (1, 1), Black, []) == GroupScan(0, [(1, 1)])
  {
    assert Neighbours(2, (1, 1)) == [(2, 1), (1, 2)];
    assert [] + [(1, 1)] == [(1, 1)];
    EdgeCornerScan();
  }

  /** Both inspected neighbours of the black (1,1) are occupied. */
  lemma EdgeCornerNoLiberty()
    ensures !HasLiberty(2, EdgeCapture, [(1, 1)])
  {
    assert Neighbours(2, (1, 1)) == [(2, 1), (1, 2)];
    assert !IsEmpty(EdgeCapture, (2, 1)) && !IsEmpty(EdgeCapture, (1, 2));
    forall x, m | x in [(1, 1)] && m in Neighbours(2, x) ensures !IsEmpty(EdgeCapture, m) {
      assert x == (1, 1);
    }
  }

  /** (1,1) alone, with white stones below and to the right, has no liberty. */
  lemma EdgeCornerDead()
    ensures DeadGroupAt(2, EdgeCapture, (1, 1), Black) == [(1, 1)]
  {
    EdgeCornerAlone();
    EdgeCornerNoLiberty();
    assert FindStone(EdgeCapture, 1, 1) == Some(Stone(1, 1, Black));
  }

  /** The empty (2,2) yields no dead group. */
  lemma EdgeFarCornerEmpty()
    ensures DeadGroups(2, EdgeCapture, [(2, 2)], Black) == []
  {
    assert FindStone(EdgeCapture, 2, 2) == None;
    assert DeadGroupAt(2, EdgeCapture, (2, 2), Black) == [];
  }

  /** The points White's move (1,2) captures on `EdgeBoard`: (1,1) alone. */
  lemma EdgeCaptureRemoves()
    ensures StonesToRemove(2, EdgeCapture, (1, 2), Black) == [(1, 1)]
  {
    var ns := Neighbours(2, (1, 2));
    assert ns == [(1, 1), (2, 2)];
    assert ns[1..] == [(2, 2)];
    EdgeCornerDead();
    EdgeFarCornerEmpty();
    assert DeadGroups(2, EdgeCapture, ns, Black) == DeadGroupAt(2, EdgeCapture, (1, 1), Black) + DeadGroups(2, EdgeCapture, [(2, 2)], Black);
  }

  /** Filtering (1,1) out of `EdgeCapture` leaves `EdgeAfter`. */
  lemma EdgeCaptureFilter()
    ensures RemovePoints(EdgeCapture, [(1, 1)]) == EdgeAfter
  {
    RemovePointsCons(EdgeCapture, [(1, 1)]);
    assert EdgeCapture[1..] == EdgeAfter;
    RemovePointsKeep(EdgeAfter, [(1, 1)]);
  }

  /** White's move (1,2) on `EdgeBoard` removes the black stone (1,1) only. */
  lemma EdgeCaptureDraft()
    ensures DraftAfterMove(2, EdgeBoard, 4, (1, 2)) == EdgeAfter
  {
    assert EdgeBoard + [Stone(1, 2, White)] == EdgeCapture;
    EdgeCaptureRemoves();
    EdgeCaptureFilter();
  }

  /** After the capture, White's (1,2) sees the empty (1,1) and (2,2). */
  lemma EdgeAfterScan()
    ensures ComputeGroupAndLiberties(2, EdgeAfter, (1, 2), White, []) == GroupScan(2, [(1, 2)])
  {
    assert Neighbours(2, (1, 2)) == [(1, 1), (2, 2)];
    assert ScanNeighbours(2, EdgeAfter, White, [(2, 2)], 1, [(1, 2)]) == GroupScan(2, [(1, 2)]);
    assert [] + [(1, 2)] == [(1, 2)];
  }

  /** White's move (1,2) keeps two liberties and is accepted. */
  lemma EdgeCaptureAccepted()
    ensures Move(2, EdgeBoard, 4, (1, 2)) == Placed(EdgeAfter)
  {
    EdgeCaptureDraft();
    EdgeAfterScan();
  }

  /** (0,1) is orthogonally adjacent to (1,1), but the guard `i > 1` keeps a
      search from (1,1) from inspecting it. */
  lemma EdgeNotInspected()
    ensures Adjacent((1, 1), (0, 1)) && (0, 1) !in Neighbours(2, (1, 1))
  {
    assert Neighbours(2, (1, 1)) == [(2, 1), (1, 2)];
  }

  /** The inspected-neighbour relation is one-way at the edge, so a capture can
      split a group that straddles it: after Black's off-board move (0,1) beside
      its stone (1,1), White's move (1,2) captures (1,1) alone and leaves its
      orthogonally adjacent partner (0,1) on the board. */
  lemma EdgeGroupSplit()
    ensures Move(2, [Stone(1, 1, Black), Stone(2, 1, White)], 3, (0, 1)) == Placed(EdgeBoard)
    ensures Move(2, EdgeBoard, 4, (1, 2)) == Placed(EdgeAfter)
    ensures Stone(1, 1, Black) !in EdgeAfter && Stone(0, 1, Black) in EdgeAfter
    ensures Adjacent((1, 1), (0, 1)) && (0, 1) !in Neighbours(2, (1, 1))
  {
    EdgeStoneAccepted();
    EdgeCaptureAccepted();
    EdgeNotInspected();
  }

  /** How `addStone`'s two tests, occupancy on the committed board and liberties
      on the draft, decide `Move`; a committed draft keeps one stone per point. */
  lemma MoveCases(size: int, stones: seq<Stone>, turn: int, p: Point, draft: seq<Stone>, ok: bool, after: seq<Stone>)
    requires draft == DraftAfterMove(size, stones, turn, p)
    requires ok == (FindStone(stones, p.0, p.1) == None && ComputeGroupAndLiberties(size, draft, p, CurrentColor(turn), []).liberties != 0)
    requires after == if ok then draft else stones
    ensures ok <==> Move(size, stones, turn, p).Placed?
    ensures after == if ok then Move(size, stones, turn, p).stones else stones
    ensures OneStonePerPoint(stones) ==> OneStonePerPoint(after)
  {
    if ok && OneStonePerPoint(stones) {
      MoveOutcome(size, stones, turn, p);
    }
  }

  class GoGame {
    const size: int
    var turn: int
    var stones: seq<Stone>

    /** The invariant a game built through these operations keeps. */
    ghost predicate Valid()
      reads this
    {
      OneStonePerPoint(stones)
    }

    /** A new game: turn 1, empty board. */
    constructor (size: int)
      ensures this.size == size && turn == 1 && stones == []
      ensures Valid()
    {
      this.size := size;
      turn := 1;
      stones := [];
    }

    /** `draft(this)`: a working copy whose changes reach the game only on commit. */
    constructor Draft(game: GoGame)
      ensures size == game.size && turn == game.turn && stones == game.stones
    {
      size := game.size;
      turn := game.turn;
      stones := game.stones;
    }

    /** `nextTurn`: the other colour is to play. */
    method NextTurn()
      modifies this
      ensures turn == old(turn) + 1 && stones == old(stones)
      ensures CurrentColor(turn) == OpponentColor(old(turn))
      ensures old(Valid()) ==> Valid()
    {
      turn := turn + 1;
      TurnsAlternate(old(turn), 1);
    }

    /** `rawAddStone`: append a stone, no questions asked. */
    method RawAddStone(position: Point, color: Color)
      modifies this
      ensures stones == old(stones) + [Stone(position.0, position.1, color)]
      ensures turn == old(turn)
    {
      stones := stones + [Stone(position.0, position.1, color)];
    }

    /** `removeDeadStonesAroundPosition(i, j)`: collect the liberty-less opponent
        groups up, left, down and right of (i, j) on a snapshot of the board, then
        filter their points out. */
    method RemoveDeadStonesAroundPosition(i: int, j: int)
      modifies this
      ensures stones == AfterCaptures(size, old(stones), (i, j), OpponentColor(turn))
      ensures turn == old(turn)
    {
      var opponent := OpponentColor(turn);
      var board := stones;
      var stonesToRemove: seq<Point> := [];
      stonesToRemove := AppendDeadGroup(size, board, i > 1, (i - 1, j), opponent, stonesToRemove);
      ghost var up := stonesToRemove;
      stonesToRemove := AppendDeadGroup(size, board, j > 1, (i, j - 1), opponent, stonesToRemove);
      ghost var left := stonesToRemove;
      stonesToRemove := AppendDeadGroup(size, board, i < size, (i + 1, j), opponent, stonesToRemove);
      ghost var down := stonesToRemove;
      stonesToRemove := AppendDeadGroup(size, board, j < size, (i, j + 1), opponent, stonesToRemove);
      CollectedBlocks(size, board, i, j, opponent, up, left, down, stonesToRemove);
      stones := RemovePoints(board, stonesToRemove);
    }

    /** `addStone(position)`: play the colour to move on a draft, capture around it,
        and commit the draft unless the point was already occupied or the new
        group has no liberty. */
    method AddStone(position: Point) returns (ok: bool)
      modifies this
      ensures turn == old(turn)
      ensures ok <==> Move(size, old(stones), old(turn), position).Placed?
      ensures stones == if ok then Move(size, old(stones), old(turn), position).stones else old(stones)
      ensures old(Valid()) ==> Valid()
    {
      var afterActionDraft := new GoGame.Draft(this);
      afterActionDraft.RawAddStone(position, CurrentColor(turn));
      afterActionDraft.RemoveDeadStonesAroundPosition(position.0, position.1);
      assert turn == old(turn) && stones == old(stones);
      assert afterActionDraft.stones == DraftAfterMove(size, stones, turn, position);
      if FindStone(stones, position.0, position.1) != None {
        ok := false;
      } else if ComputeGroupAndLiberties(size, afterActionDraft.stones, position, CurrentColor(turn), []).liberties == 0 {
        ok := false; // no suicide move
      } else {
        stones := afterActionDraft.stones;
        ok := true;
      }
      MoveCases(size, old(stones), turn, position, afterActionDraft.stones, ok, stones);
    }
  }
}
