/** The second revision of the rules engine (src/models/Player.model.ts): each
    player object holds its own stones as a list of positions, and finds groups
    and liberties by searching in the four directions. The board size and the
    other player's stones, which the source reaches through the root store, are
    parameters here. */
module PlayerModel {
  import opened PositionModel
  import opened Sequences
  import GoGameModel

  // ---------------------------------------------------------------------------
  // Directions

  /** The four direction functions `upDirection` … `rightDirection`. */
  datatype Direction = Up | Down | Left | Right

  /** Applying a direction function: one step along a row or a column. */
  function Step(d: Direction, p: Position): (q: Position)
    ensures (q.i == p.i && (q.j == p.j - 1 || q.j == p.j + 1)) || (q.j == p.j && (q.i == p.i - 1 || q.i == p.i + 1))
  {
    match d
    case Up => Position(p.i - 1, p.j)
    case Down => Position(p.i + 1, p.j)
    case Left => Position(p.i, p.j - 1)
    case Right => Position(p.i, p.j + 1)
  }

  function Opposite(d: Direction): Direction
  {
    match d
    case Up => Down
    case Down => Up
    case Left => Right
    case Right => Left
  }

  /** Up and down, left and right undo each other; the four steps from a
      position lead to four different positions. */
  lemma StepsAreInverse(d: Direction, p: Position)
    ensures Step(Opposite(d), Step(d, p)) == p
    ensures Opposite(d) != d && Opposite(Opposite(d)) == d
    ensures forall e :: e != d ==> Step(e, p) != Step(d, p)
  {
  }

  /** The order in which `computeGroupAndLiberties` reduces over the directions. */
  const Directions: seq<Direction> := [Up, Down, Left, Right]

  // ---------------------------------------------------------------------------
  // Membership

  /** `positions.some((other) => p.equal(other))`. */
  function AnyEqual(positions: seq<Position>, p: Position): (r: bool)
    ensures r <==> p in positions
  {
    if positions == [] then false
    else Equal(p, positions[0]) || AnyEqual(positions[1..], p)
  }

  /** The point is on the board and holds a stone of neither player. */
  ghost predicate Free(size: int, own: seq<Position>, other: seq<Position>, t: Position)
  {
    IsInBoard(t, size) && t !in own && t !in other
  }

  ghost predicate NoDuplicates(s: seq<Position>)
  {
    forall a, b :: 0 <= a < b < |s| ==> s[a] != s[b]
  }

  // ---------------------------------------------------------------------------
  // Group and liberty search

  /** The result of `computeGroupAndLiberties`. */
  datatype Search = Search(liberties: seq<Position>, stones: seq<Position>)

  /** The number of own stones whose position is not in `visited`: every
      recursive exploration lowers it, so the search terminates. */
  ghost function Unvisited(own: seq<Position>, visited: seq<Position>): nat
  {
    if own == [] then 0
    else (if own[0] !in visited then 1 else 0) + Unvisited(own[1..], visited)
  }

  lemma {:induction false} UnvisitedMonotone(own: seq<Position>, visited: seq<Position>, more: seq<Position>)
    requires forall x :: x in visited ==> x in more
    ensures Unvisited(own, more) <= Unvisited(own, visited)
    decreases |own|
  {
    if own != [] {
      UnvisitedMonotone(own[1..], visited, more);
    }
  }

  lemma {:induction false} UnvisitedDrops(own: seq<Position>, visited: seq<Position>, p: Position)
    requires p in own && p !in visited
    ensures Unvisited(own, visited + [p]) < Unvisited(own, visited)
    decreases |own|
  {
    if own[0] == p {
      UnvisitedMonotone(own[1..], visited, visited + [p]);
    } else {
      UnvisitedDrops(own[1..], visited, p);
    }
  }

  /** `computeGroupAndLiberties(position, liberties, acc)`: append `p` to `acc`,
      then search up, down, left and right in turn, threading the liberties and
      the stones found so far. */
  function ComputeGroupAndLiberties(size: int, own: seq<Position>, other: seq<Position>, p: Position,
                                    liberties: seq<Position>, acc: seq<Position>): (r: Search)
    ensures acc + [p] <= r.stones && liberties <= r.liberties
    decreases Unvisited(own, acc + [p]), 2, 0
  {
    SearchDirections(size, own, other, p, Directions, liberties, acc + [p])
  }

  /** The `reduce` over the remaining directions `ds`. */
  function SearchDirections(size: int, own: seq<Position>, other: seq<Position>, p: Position, ds: seq<Direction>,
                            liberties: seq<Position>, acc: seq<Position>): (r: Search)
    ensures acc <= r.stones && liberties <= r.liberties
    decreases Unvisited(own, acc), 1, |ds|
  {
    if ds == [] then Search(liberties, acc)
    else
      var found := SearchInDirection(size, own, other, p, liberties, acc, ds[0]);
      PrefixElements(acc, found.stones);
      UnvisitedMonotone(own, acc, found.stones);
      SearchDirections(size, own, other, p, ds[1..], found.liberties, found.stones)
  }

  /** `searchGroupAndLibertiesInDirection`: an off-board target, one already
      listed as a stone or a liberty, or an opponent stone changes nothing; an
      own stone is explored and then appended once more; an empty point becomes
      a liberty. */
  function SearchInDirection(size: int, own: seq<Position>, other: seq<Position>, p: Position,
                             liberties: seq<Position>, acc: seq<Position>, d: Direction): (r: Search)
    ensures acc <= r.stones && liberties <= r.liberties
    decreases Unvisited(own, acc), 0, 0
  {
    var target := Step(d, p);
    if !IsInBoard(target, size) then Search(liberties, acc)
    else if AnyEqual(acc, target) || AnyEqual(liberties, target) then Search(liberties, acc)
    else if AnyEqual(own, target) then
      UnvisitedDrops(own, acc, target);
      var group := ComputeGroupAndLiberties(size, own, other, target, liberties, acc);
      Search(group.liberties, group.stones + [target])
    else if AnyEqual(other, target) then Search(liberties, acc)
    else Search(liberties + [target], acc)
  }

  /** Every direction is searched. */
  lemma AllDirections(d: Direction)
    ensures d in Directions
  {
  }

  // Apart from `acc` and the start, the search lists only own stones.

  lemma {:induction false} ComputeMembers(size: int, own: seq<Position>, other: seq<Position>, p: Position,
                                          liberties: seq<Position>, acc: seq<Position>)
    ensures forall x :: x in ComputeGroupAndLiberties(size, own, other, p, liberties, acc).stones ==> x in acc || x == p || x in own
    decreases Unvisited(own, acc + [p]), 2, 0
  {
    var acc0 := acc + [p];
    assert ComputeGroupAndLiberties(size, own, other, p, liberties, acc) == SearchDirections(size, own, other, p, Directions, liberties, acc0);
    DirectionsMembers(size, own, other, p, Directions, liberties, acc0);
  }

  lemma {:induction false} DirectionsMembers(size: int, own: seq<Position>, other: seq<Position>, p: Position, ds: seq<Direction>,
                                             liberties: seq<Position>, acc: seq<Position>)
    ensures forall x :: x in SearchDirections(size, own, other, p, ds, liberties, acc).stones ==> x in acc || x in own
    decreases Unvisited(own, acc), 1, |ds|
  {
    if ds != [] {
      var found := SearchInDirection(size, own, other, p, liberties, acc, ds[0]);
      var r := SearchDirections(size, own, other, p, ds[1..], found.liberties, found.stones);
      assert r == SearchDirections(size, own, other, p, ds, liberties, acc);
      assert (forall x :: x in found.stones ==> x in acc || x in own) && (forall x :: x in r.stones ==> x in found.stones || x in own) by {
        InDirectionMembers(size, own, other, p, liberties, acc, ds[0]);
        PrefixElements(acc, found.stones);
        UnvisitedMonotone(own, acc, found.stones);
        DirectionsMembers(size, own, other, p, ds[1..], found.liberties, found.stones);
      }
    }
  }

  lemma {:induction false} InDirectionMembers(size: int, own: seq<Position>, other: seq<Position>, p: Position,
                                              liberties: seq<Position>, acc: seq<Position>, d: Direction)
    ensures forall x :: x in SearchInDirection(size, own, other, p, liberties, acc, d).stones ==> x in acc || x in own
    decreases Unvisited(own, acc), 0, 0
  {
    var target := Step(d, p);
    if IsInBoard(target, size) && target !in acc && target !in liberties && target in own {
      var group := ComputeGroupAndLiberties(size, own, other, target, liberties, acc);
      assert SearchInDirection(size, own, other, p, liberties, acc, d).stones == group.stones + [target];
      assert forall x :: x in group.stones ==> x in acc || x == target || x in own by {
        UnvisitedDrops(own, acc, target);
        ComputeMembers(size, own, other, target, liberties, acc);
      }
    }
  }

  // The liberties found are free points, each listed once.

  ghost predicate ValidLiberties(size: int, own: seq<Position>, other: seq<Position>, liberties: seq<Position>)
  {
    (forall l :: l in liberties ==> Free(size, own, other, l)) && NoDuplicates(liberties)
  }

  lemma {:induction false} ComputeLiberties(size: int, own: seq<Position>, other: seq<Position>, p: Position,
                                            liberties: seq<Position>, acc: seq<Position>)
    requires ValidLiberties(size, own, other, liberties)
    ensures ValidLiberties(size, own, other, ComputeGroupAndLiberties(size, own, other, p, liberties, acc).liberties)
    decreases Unvisited(own, acc + [p]), 2, 0
  {
    var acc0 := acc + [p];
    assert ComputeGroupAndLiberties(size, own, other, p, liberties, acc) == SearchDirections(size, own, other, p, Directions, liberties, acc0);
    DirectionsLiberties(size, own, other, p, Directions, liberties, acc0);
  }

  lemma {:induction false} DirectionsLiberties(size: int, own: seq<Position>, other: seq<Position>, p: Position, ds: seq<Direction>,
                                               liberties: seq<Position>, acc: seq<Position>)
    requires ValidLiberties(size, own, other, liberties)
    ensures ValidLiberties(size, own, other, SearchDirections(size, own, other, p, ds, liberties, acc).liberties)
    decreases Unvisited(own, acc), 1, |ds|
  {
    if ds != [] {
      var found := SearchInDirection(size, own, other, p, liberties, acc, ds[0]);
      var r := SearchDirections(size, own, other, p, ds[1..], found.liberties, found.stones);
      assert r == SearchDirections(size, own, other, p, ds, liberties, acc);
      assert ValidLiberties(size, own, other, r.liberties) by {
        InDirectionLiberties(size, own, other, p, liberties, acc, ds[0]);
        PrefixElements(acc, found.stones);
        UnvisitedMonotone(own, acc, found.stones);
        DirectionsLiberties(size, own, other, p, ds[1..], found.liberties, found.stones);
      }
    }
  }

  lemma {:induction false} InDirectionLiberties(size: int, own: seq<Position>, other: seq<Position>, p: Position,
                                                liberties: seq<Position>, acc: seq<Position>, d: Direction)
    requires ValidLiberties(size, own, other, liberties)
    ensures ValidLiberties(size, own, other, SearchInDirection(size, own, other, p, liberties, acc, d).liberties)
    decreases Unvisited(own, acc), 0, 0
  {
    var target := Step(d, p);
    if IsInBoard(target, size) && target !in acc && target !in liberties {
      if target in own {
        var group := ComputeGroupAndLiberties(size, own, other, target, liberties, acc);
        assert SearchInDirection(size, own, other, p, liberties, acc, d).liberties == group.liberties;
        assert ValidLiberties(size, own, other, group.liberties) by {
          UnvisitedDrops(own, acc, target);
          ComputeLiberties(size, own, other, target, liberties, acc);
        }
      } else if target !in other {
        var r := liberties + [target];
        assert SearchInDirection(size, own, other, p, liberties, acc, d).liberties == r;
        forall a, b | 0 <= a < b < |r| ensures r[a] != r[b] {
          if b == |liberties| {
            assert r[a] in liberties;
          }
        }
      }
    }
  }

  // Every position the search visits has all four directions dealt with.

  /** An in-board target is listed as a stone or a liberty, or holds only an opponent stone. */
  ghost predicate DoneAt(size: int, own: seq<Position>, other: seq<Position>, stones: seq<Position>, liberties: seq<Position>, t: Position)
  {
    IsInBoard(t, size) ==> t in stones || t in liberties || (t !in own && t in other)
  }

  ghost predicate CoveredAt(size: int, own: seq<Position>, other: seq<Position>, stones: seq<Position>, liberties: seq<Position>, x: Position)
  {
    forall d :: DoneAt(size, own, other, stones, liberties, Step(d, x))
  }

  /** Every listed position outside `skip` is covered. */
  ghost predicate Covered(size: int, own: seq<Position>, other: seq<Position>, stones: seq<Position>, liberties: seq<Position>, skip: set<Position>)
  {
    forall x {:trigger x in stones} :: x in stones && x !in skip ==> CoveredAt(size, own, other, stones, liberties, x)
  }

  /** Coverage survives the lists growing. */
  lemma CoveredGrows(size: int, own: seq<Position>, other: seq<Position>, stones: seq<Position>, liberties: seq<Position>,
                     stones': seq<Position>, liberties': seq<Position>, x: Position)
    requires stones <= stones' && liberties <= liberties'
    requires CoveredAt(size, own, other, stones, liberties, x)
    ensures CoveredAt(size, own, other, stones', liberties', x)
  {
    PrefixElements(stones, stones');
    PrefixElements(liberties, liberties');
    forall d ensures DoneAt(size, own, other, stones', liberties', Step(d, x)) {
      assert DoneAt(size, own, other, stones, liberties, Step(d, x));
    }
  }

  lemma CoveredJoin(size: int, own: seq<Position>, other: seq<Position>, stones: seq<Position>, liberties: seq<Position>,
                    stones': seq<Position>, liberties': seq<Position>, skip: set<Position>)
    requires stones <= stones' && liberties <= liberties'
    requires Covered(size, own, other, stones, liberties, skip)
    requires Covered(size, own, other, stones', liberties', Elements(stones))
    ensures Covered(size, own, other, stones', liberties', skip)
  {
    forall x | x in stones' && x !in skip ensures CoveredAt(size, own, other, stones', liberties', x) {
      if x in stones {
        CoveredGrows(size, own, other, stones, liberties, stones', liberties', x);
      } else {
        assert x !in Elements(stones);
      }
    }
  }

  lemma {:induction false} ComputeCovered(size: int, own: seq<Position>, other: seq<Position>, p: Position,
                                          liberties: seq<Position>, acc: seq<Position>)
    ensures var r := ComputeGroupAndLiberties(size, own, other, p, liberties, acc);
      Covered(size, own, other, r.stones, r.liberties, Elements(acc) - {p})
    decreases Unvisited(own, acc + [p]), 2, 0
  {
    var acc0 := acc + [p];
    var r := SearchDirections(size, own, other, p, Directions, liberties, acc0);
    assert ComputeGroupAndLiberties(size, own, other, p, liberties, acc) == r;
    DirectionsCovered(size, own, other, p, Directions, liberties, acc0);
    forall x | x in r.stones && x !in Elements(acc) - {p} ensures CoveredAt(size, own, other, r.stones, r.liberties, x) {
      if x == p {
        forall d ensures DoneAt(size, own, other, r.stones, r.liberties, Step(d, p)) {
          AllDirections(d);
        }
      } else {
        assert x !in Elements(acc0);
      }
    }
  }

  lemma {:induction false} DirectionsCovered(size: int, own: seq<Position>, other: seq<Position>, p: Position, ds: seq<Direction>,
                                             liberties: seq<Position>, acc: seq<Position>)
    ensures var r := SearchDirections(size, own, other, p, ds, liberties, acc);
      && (forall d :: d in ds ==> DoneAt(size, own, other, r.stones, r.liberties, Step(d, p)))
      && Covered(size, own, other, r.stones, r.liberties, Elements(acc))
    decreases Unvisited(own, acc), 1, |ds|
  {
    if ds != [] {
      var found := SearchInDirection(size, own, other, p, liberties, acc, ds[0]);
      var r := SearchDirections(size, own, other, p, ds[1..], found.liberties, found.stones);
      assert r == SearchDirections(size, own, other, p, ds, liberties, acc);
      assert DoneAt(size, own, other, found.stones, found.liberties, Step(ds[0], p)) &&
        Covered(size, own, other, found.stones, found.liberties, Elements(acc)) &&
        (forall d :: d in ds[1..] ==> DoneAt(size, own, other, r.stones, r.liberties, Step(d, p))) &&
        Covered(size, own, other, r.stones, r.liberties, Elements(found.stones))
      by {
        InDirectionCovered(size, own, other, p, liberties, acc, ds[0]);
        PrefixElements(acc, found.stones);
        UnvisitedMonotone(own, acc, found.stones);
        DirectionsCovered(size, own, other, p, ds[1..], found.liberties, found.stones);
      }
      CoveredJoin(size, own, other, found.stones, found.liberties, r.stones, r.liberties, Elements(acc));
      PrefixElements(found.stones, r.stones);
      PrefixElements(found.liberties, r.liberties);
      forall d | d in ds ensures DoneAt(size, own, other, r.stones, r.liberties, Step(d, p)) {
        if d != ds[0] {
          assert d in ds[1..];
        }
      }
    }
  }

  lemma {:induction false} InDirectionCovered(size: int, own: seq<Position>, other: seq<Position>, p: Position,
                                              liberties: seq<Position>, acc: seq<Position>, d: Direction)
    ensures var r := SearchInDirection(size, own, other, p, liberties, acc, d);
      && DoneAt(size, own, other, r.stones, r.liberties, Step(d, p))
      && Covered(size, own, other, r.stones, r.liberties, Elements(acc))
    decreases Unvisited(own, acc), 0, 0
  {
    var target := Step(d, p);
    var r := SearchInDirection(size, own, other, p, liberties, acc, d);
    if IsInBoard(target, size) && target !in acc && target !in liberties && target in own {
      var group := ComputeGroupAndLiberties(size, own, other, target, liberties, acc);
      assert r == Search(group.liberties, group.stones + [target]);
      assert Covered(size, own, other, group.stones, group.liberties, Elements(acc) - {target}) && acc + [target] <= group.stones by {
        UnvisitedDrops(own, acc, target);
        ComputeCovered(size, own, other, target, liberties, acc);
      }
      PrefixElements(acc + [target], group.stones);
      forall x | x in r.stones && x !in Elements(acc) ensures CoveredAt(size, own, other, r.stones, r.liberties, x) {
        assert x in group.stones;
        CoveredGrows(size, own, other, group.stones, group.liberties, r.stones, r.liberties, x);
      }
    } else {
      assert r.stones == acc;
    }
  }

  // A liberty is only ever added next to a visited position.

  lemma {:induction false} ComputeWitness(size: int, own: seq<Position>, other: seq<Position>, p: Position,
                                          liberties: seq<Position>, acc: seq<Position>)
    returns (x: Position, d: Direction)
    requires |ComputeGroupAndLiberties(size, own, other, p, liberties, acc).liberties| > |liberties|
    ensures x in ComputeGroupAndLiberties(size, own, other, p, liberties, acc).stones
    ensures Free(size, own, other, Step(d, x))
    decreases Unvisited(own, acc + [p]), 2, 0
  {
    var acc0 := acc + [p];
    assert ComputeGroupAndLiberties(size, own, other, p, liberties, acc) == SearchDirections(size, own, other, p, Directions, liberties, acc0);
    x, d := DirectionsWitness(size, own, other, p, Directions, liberties, acc0);
  }

  lemma {:induction false} DirectionsWitness(size: int, own: seq<Position>, other: seq<Position>, p: Position, ds: seq<Direction>,
                                             liberties: seq<Position>, acc: seq<Position>)
    returns (x: Position, d: Direction)
    requires p in acc
    requires |SearchDirections(size, own, other, p, ds, liberties, acc).liberties| > |liberties|
    ensures x in SearchDirections(size, own, other, p, ds, liberties, acc).stones
    ensures Free(size, own, other, Step(d, x))
    decreases Unvisited(own, acc), 1, |ds|
  {
    var found := SearchInDirection(size, own, other, p, liberties, acc, ds[0]);
    var r := SearchDirections(size, own, other, p, ds[1..], found.liberties, found.stones);
    assert r == SearchDirections(size, own, other, p, ds, liberties, acc);
    PrefixElements(acc, found.stones);
    PrefixElements(found.stones, r.stones);
    UnvisitedMonotone(own, acc, found.stones);
    if |found.liberties| > |liberties| {
      x, d := InDirectionWitness(size, own, other, p, liberties, acc, ds[0]);
    } else {
      x, d := DirectionsWitness(size, own, other, p, ds[1..], found.liberties, found.stones);
    }
  }

  lemma {:induction false} InDirectionWitness(size: int, own: seq<Position>, other: seq<Position>, p: Position,
                                              liberties: seq<Position>, acc: seq<Position>, d0: Direction)
    returns (x: Position, d: Direction)
    requires p in acc
    requires |SearchInDirection(size, own, other, p, liberties, acc, d0).liberties| > |liberties|
    ensures x in SearchInDirection(size, own, other, p, liberties, acc, d0).stones
    ensures Free(size, own, other, Step(d, x))
    decreases Unvisited(own, acc), 0, 0
  {
    var target := Step(d0, p);
    var r := SearchInDirection(size, own, other, p, liberties, acc, d0);
    if target in own {
      var group := ComputeGroupAndLiberties(size, own, other, target, liberties, acc);
      assert r == Search(group.liberties, group.stones + [target]);
      UnvisitedDrops(own, acc, target);
      x, d := ComputeWitness(size, own, other, target, liberties, acc);
    } else {
      assert r == Search(liberties + [target], acc);
      x, d := p, d0;
    }
  }

  // Every listed position outside the caller's accumulator is one step from an
  // earlier listed position, so the list is connected to the start.

  /** The position at index `k` is one step from a position listed before it. */
  ghost predicate ReachedAt(list: seq<Position>, k: int)
  {
    0 <= k < |list| && exists k', d :: 0 <= k' < k && list[k] == Step(d, list[k'])
  }

  /** Every listed position outside `base` was reached from an earlier one. */
  ghost predicate Reached(list: seq<Position>, base: set<Position>)
  {
    forall k :: 0 <= k < |list| && list[k] !in base ==> ReachedAt(list, k)
  }

  /** `b` is one step from `a` in some direction. */
  ghost predicate OneStep(a: Position, b: Position)
  {
    exists d :: b == Step(d, a)
  }

  /** `path` walks through positions of `group`, one step at a time. */
  ghost predicate IsChain(group: seq<Position>, path: seq<Position>)
  {
    && |path| > 0
    && (forall i :: 0 <= i < |path| ==> path[i] in group)
    && (forall i :: 0 < i < |path| ==> OneStep(path[i - 1], path[i]))
  }

  /** `to` is reached from `from` by a chain inside `group`. */
  ghost predicate Connected(group: seq<Position>, from: Position, to: Position)
  {
    exists path :: IsChain(group, path) && path[0] == from && path[|path| - 1] == to
  }

  /** Following the earlier positions back from index `k` ends in `base`. */
  lemma {:induction false} ChainToBase(list: seq<Position>, base: set<Position>, k: int) returns (path: seq<Position>)
    requires Reached(list, base) && 0 <= k < |list|
    ensures IsChain(list, path) && path[0] in base && path[|path| - 1] == list[k]
    decreases k
  {
    if list[k] in base {
      path := [list[k]];
    } else {
      assert ReachedAt(list, k);
      var k', d :| 0 <= k' < k && list[k] == Step(d, list[k']);
      var prefix := ChainToBase(list, base, k');
      path := prefix + [list[k]];
      forall i | 0 < i < |path| ensures OneStep(path[i - 1], path[i]) {
        if i < |prefix| {
          assert path[i] == prefix[i] && path[i - 1] == prefix[i - 1];
        } else {
          assert path[i] == Step(d, path[i - 1]);
        }
      }
      assert forall i :: 0 <= i < |prefix| ==> path[i] == prefix[i];
    }
  }

  /** A list extended by a later search stays reached from the same base. */
  lemma ReachedJoin(a: seq<Position>, r: seq<Position>, base: set<Position>)
    requires a <= r && Reached(a, base) && Reached(r, Elements(a))
    ensures Reached(r, base)
  {
    forall k | 0 <= k < |r| && r[k] !in base ensures ReachedAt(r, k) {
      if k < |a| {
        assert r[k] == a[k] && ReachedAt(a, k);
        var k', d :| 0 <= k' < k && a[k] == Step(d, a[k']);
        assert r[k'] == a[k'];
      } else if r[k] in Elements(a) {
        var j :| 0 <= j < |a| && a[j] == r[k];
        assert ReachedAt(a, j);
        var k', d :| 0 <= k' < j && a[j] == Step(d, a[k']);
        assert r[k'] == a[k'];
      }
    }
  }

  lemma {:induction false} ComputeReached(size: int, own: seq<Position>, other: seq<Position>, p: Position,
                                          liberties: seq<Position>, acc: seq<Position>)
    ensures Reached(ComputeGroupAndLiberties(size, own, other, p, liberties, acc).stones, Elements(acc) + {p})
    decreases Unvisited(own, acc + [p]), 2, 0
  {
    var acc0 := acc + [p];
    assert ComputeGroupAndLiberties(size, own, other, p, liberties, acc) == SearchDirections(size, own, other, p, Directions, liberties, acc0);
    assert Elements(acc0) == Elements(acc) + {p};
    DirectionsReached(size, own, other, p, Directions, liberties, acc0);
  }

  lemma {:induction false} DirectionsReached(size: int, own: seq<Position>, other: seq<Position>, p: Position, ds: seq<Direction>,
                                             liberties: seq<Position>, acc: seq<Position>)
    requires p in acc
    ensures Reached(SearchDirections(size, own, other, p, ds, liberties, acc).stones, Elements(acc))
    decreases Unvisited(own, acc), 1, |ds|
  {
    if ds == [] {
      assert SearchDirections(size, own, other, p, ds, liberties, acc).stones == acc;
    } else {
      var found := SearchInDirection(size, own, other, p, liberties, acc, ds[0]);
      var r := SearchDirections(size, own, other, p, ds[1..], found.liberties, found.stones);
      assert r == SearchDirections(size, own, other, p, ds, liberties, acc);
      assert Reached(found.stones, Elements(acc)) && Reached(r.stones, Elements(found.stones)) by {
        InDirectionReached(size, own, other, p, liberties, acc, ds[0]);
        PrefixElements(acc, found.stones);
        UnvisitedMonotone(own, acc, found.stones);
        DirectionsReached(size, own, other, p, ds[1..], found.liberties, found.stones);
      }
      ReachedJoin(found.stones, r.stones, Elements(acc));
    }
  }

  lemma {:induction false} InDirectionReached(size: int, own: seq<Position>, other: seq<Position>, p: Position,
                                              liberties: seq<Position>, acc: seq<Position>, d: Direction)
    requires p in acc
    ensures Reached(SearchInDirection(size, own, other, p, liberties, acc, d).stones, Elements(acc))
    decreases Unvisited(own, acc), 0, 0
  {
    var target := Step(d, p);
    var r := SearchInDirection(size, own, other, p, liberties, acc, d);
    if IsInBoard(target, size) && target !in acc && target !in liberties && target in own {
      var group := ComputeGroupAndLiberties(size, own, other, target, liberties, acc);
      assert r.stones == group.stones + [target];
      assert Reached(group.stones, Elements(acc) + {target}) && acc + [target] <= group.stones by {
        UnvisitedDrops(own, acc, target);
        ComputeReached(size, own, other, target, liberties, acc);
      }
      var i :| 0 <= i < |acc| && acc[i] == p;
      forall k | 0 <= k < |r.stones| && r.stones[k] !in Elements(acc) ensures ReachedAt(r.stones, k) {
        assert k >= |acc|;
        assert r.stones[i] == p;
        if k < |group.stones| && group.stones[k] != target {
          assert r.stones[k] == group.stones[k] && ReachedAt(group.stones, k);
          var k', e :| 0 <= k' < k && group.stones[k] == Step(e, group.stones[k']);
          assert r.stones[k'] == group.stones[k'];
        } else {
          assert r.stones[k] == Step(d, r.stones[i]);
        }
      }
    } else {
      assert r.stones == acc;
    }
  }

  // Every liberty is one step from a listed position.

  /** Each of `liberties` is one step from a position of `stones`. */
  ghost predicate Near(stones: seq<Position>, liberties: seq<Position>)
  {
    forall l :: l in liberties ==> exists x, d :: x in stones && Step(d, x) == l
  }

  lemma NearGrows(stones: seq<Position>, stones': seq<Position>, liberties: seq<Position>)
    requires stones <= stones' && Near(stones, liberties)
    ensures Near(stones', liberties)
  {
    PrefixElements(stones, stones');
    forall l | l in liberties ensures exists x, d :: x in stones' && Step(d, x) == l {
      var x, d :| x in stones && Step(d, x) == l;
    }
  }

  lemma {:induction false} ComputeNear(size: int, own: seq<Position>, other: seq<Position>, p: Position,
                                       liberties: seq<Position>, acc: seq<Position>)
    requires Near(acc, liberties)
    ensures var r := ComputeGroupAndLiberties(size, own, other, p, liberties, acc); Near(r.stones, r.liberties)
    decreases Unvisited(own, acc + [p]), 2, 0
  {
    var acc0 := acc + [p];
    assert ComputeGroupAndLiberties(size, own, other, p, liberties, acc) == SearchDirections(size, own, other, p, Directions, liberties, acc0);
    NearGrows(acc, acc0, liberties);
    DirectionsNear(size, own, other, p, Directions, liberties, acc0);
  }

  lemma {:induction false} DirectionsNear(size: int, own: seq<Position>, other: seq<Position>, p: Position, ds: seq<Direction>,
                                          liberties: seq<Position>, acc: seq<Position>)
    requires p in acc && Near(acc, liberties)
    ensures var r := SearchDirections(size, own, other, p, ds, liberties, acc); Near(r.stones, r.liberties)
    decreases Unvisited(own, acc), 1, |ds|
  {
    if ds != [] {
      var found := SearchInDirection(size, own, other, p, liberties, acc, ds[0]);
      var r := SearchDirections(size, own, other, p, ds[1..], found.liberties, found.stones);
      assert r == SearchDirections(size, own, other, p, ds, liberties, acc);
      assert Near(r.stones, r.liberties) by {
        InDirectionNear(size, own, other, p, liberties, acc, ds[0]);
        PrefixElements(acc, found.stones);
        UnvisitedMonotone(own, acc, found.stones);
        DirectionsNear(size, own, other, p, ds[1..], found.liberties, found.stones);
      }
    }
  }

  lemma {:induction false} InDirectionNear(size: int, own: seq<Position>, other: seq<Position>, p: Position,
                                           liberties: seq<Position>, acc: seq<Position>, d: Direction)
    requires p in acc && Near(acc, liberties)
    ensures var r := SearchInDirection(size, own, other, p, liberties, acc, d); Near(r.stones, r.liberties)
    decreases Unvisited(own, acc), 0, 0
  {
    var target := Step(d, p);
    var r := SearchInDirection(size, own, other, p, liberties, acc, d);
    if IsInBoard(target, size) && target !in acc && target !in liberties && target in own {
      var group := ComputeGroupAndLiberties(size, own, other, target, liberties, acc);
      assert r == Search(group.liberties, group.stones + [target]);
      assert Near(group.stones, group.liberties) by {
        UnvisitedDrops(own, acc, target);
        ComputeNear(size, own, other, target, liberties, acc);
      }
      NearGrows(group.stones, r.stones, r.liberties);
    } else if IsInBoard(target, size) && target !in acc && target !in liberties && target !in other {
      assert r == Search(liberties + [target], acc);
      forall l | l in r.liberties ensures exists x, e :: x in acc && Step(e, x) == l {
        if l != target {
          assert l in liberties;
        } else {
          assert Step(d, p) == l;
        }
      }
    } else {
      assert r == Search(liberties, acc);
    }
  }

  /** Some position of `group` has a free neighbour. */
  ghost predicate HasFreeNeighbour(size: int, own: seq<Position>, other: seq<Position>, group: seq<Position>)
  {
    exists x, d :: x in group && Free(size, own, other, Step(d, x))
  }

  /** `computeGroupAndLiberties(position)` from an own stone: the list starts at
      the position and holds own stones only, it contains every in-board own
      stone next to one of its stones and every stone it lists is joined to the
      position by a chain of listed stones (so it is exactly the 4-connected
      group, possibly with repetitions, when every own stone is on the board;
      an own stone off the board is never entered from a neighbour); the liberties are exactly
      the free points next to the group, each listed once, and there are none
      exactly when no stone of the group has a free neighbour. */
  lemma GroupAndLiberties(size: int, own: seq<Position>, other: seq<Position>, p: Position)
    requires p in own
    ensures var r := ComputeGroupAndLiberties(size, own, other, p, [], []);
      && |r.stones| > 0 && r.stones[0] == p
      && (forall x :: x in r.stones ==> x in own)
      && (forall x, d :: x in r.stones && IsInBoard(Step(d, x), size) && Step(d, x) in own ==> Step(d, x) in r.stones)
      && (forall x :: x in r.stones ==> Connected(r.stones, p, x))
      && (forall l :: l in r.liberties ==> Free(size, own, other, l))
      && (forall l :: l in r.liberties ==> exists x, d :: x in r.stones && Step(d, x) == l)
      && NoDuplicates(r.liberties)
      && (forall x, d :: x in r.stones && Free(size, own, other, Step(d, x)) ==> Step(d, x) in r.liberties)
      && (r.liberties == [] <==> !HasFreeNeighbour(size, own, other, r.stones))
  {
    var r := ComputeGroupAndLiberties(size, own, other, p, [], []);
    assert [p] <= r.stones;
    ComputeMembers(size, own, other, p, [], []);
    ComputeLiberties(size, own, other, p, [], []);
    ComputeCovered(size, own, other, p, [], []);
    ComputeNear(size, own, other, p, [], []);
    ComputeReached(size, own, other, p, [], []);
    forall x | x in r.stones ensures Connected(r.stones, p, x) {
      var k :| 0 <= k < |r.stones| && r.stones[k] == x;
      var path := ChainToBase(r.stones, Elements<Position>([]) + {p}, k);
    }
    assert Elements<Position>([]) - {p} == {};
    forall x, d | x in r.stones
      ensures DoneAt(size, own, other, r.stones, r.liberties, Step(d, x))
    {
      assert CoveredAt(size, own, other, r.stones, r.liberties, x);
    }
    if r.liberties != [] {
      var x, d := ComputeWitness(size, own, other, p, [], []);
    }
  }

  /** The exploration of (1,2) inside `GroupListMayRepeat`, entered from (1,1)
      with the liberty (2,1) already listed. */
  lemma SecondStoneExplored()
    ensures ComputeGroupAndLiberties(2, [Position(1, 1), Position(1, 2)], [], Position(1, 2), [Position(2, 1)], [Position(1, 1)])
      == Search([Position(2, 1), Position(2, 2)], [Position(1, 1), Position(1, 2)])
  {
    var own: seq<Position> := [Position(1, 1), Position(1, 2)];
    var a, b := Position(1, 1), Position(1, 2);
    var la, lb := Position(2, 1), Position(2, 2);
    var accB := [a, b];
    assert SearchInDirection(2, own, [], b, [la], accB, Up) == Search([la], accB);
    assert SearchInDirection(2, own, [], b, [la], accB, Down) == Search([la, lb], accB);
    assert SearchInDirection(2, own, [], b, [la, lb], accB, Left) == Search([la, lb], accB);
    assert SearchInDirection(2, own, [], b, [la, lb], accB, Right) == Search([la, lb], accB);
    assert SearchDirections(2, own, [], b, [Right], [la, lb], accB) == Search([la, lb], accB);
    assert SearchDirections(2, own, [], b, [Left, Right], [la, lb], accB) == Search([la, lb], accB);
    assert SearchDirections(2, own, [], b, [Down, Left, Right], [la], accB) == Search([la, lb], accB);
    assert SearchDirections(2, own, [], b, Directions, [la], accB) == Search([la, lb], accB);
    assert [a] + [b] == accB;
    assert ComputeGroupAndLiberties(2, own, [], b, [la], [a]) == Search([la, lb], accB);
  }

  /** An own stone reached from another one is appended again after its own
      exploration, so the group list can name a stone twice: on a 2x2 board
      with own stones at (1,1) and (1,2), the search from (1,1) lists (1,2)
      twice and finds the liberties (2,1) and (2,2). */
  lemma GroupListMayRepeat()
    ensures var r := ComputeGroupAndLiberties(2, [Position(1, 1), Position(1, 2)], [], Position(1, 1), [], []);
      r.stones == [Position(1, 1), Position(1, 2), Position(1, 2)] && r.liberties == [Position(2, 1), Position(2, 2)]
      && !NoDuplicates(r.stones)
  {
    var own: seq<Position> := [Position(1, 1), Position(1, 2)];
    var a, b := Position(1, 1), Position(1, 2);
    var la, lb := Position(2, 1), Position(2, 2);
    SecondStoneExplored();
    // The search from (1,1).
    var accA := [a];
    var repeated := [a, b, b];
    assert SearchInDirection(2, own, [], a, [], accA, Up) == Search([], accA);
    assert SearchInDirection(2, own, [], a, [], accA, Down) == Search([la], accA);
    assert SearchInDirection(2, own, [], a, [la], accA, Left) == Search([la], accA);
    assert SearchInDirection(2, own, [], a, [la], accA, Right) == Search([la, lb], repeated);
    assert SearchDirections(2, own, [], a, [Right], [la], accA) == Search([la, lb], repeated);
    assert SearchDirections(2, own, [], a, [Left, Right], [la], accA) == Search([la, lb], repeated);
    assert SearchDirections(2, own, [], a, [Down, Left, Right], [], accA) == Search([la, lb], repeated);
    assert SearchDirections(2, own, [], a, Directions, [], accA) == Search([la, lb], repeated);
    assert [] + [a] == accA;
    assert ComputeGroupAndLiberties(2, own, [], a, [], []) == Search([la, lb], repeated);
    assert repeated[1] == repeated[2];
  }

  // ---------------------------------------------------------------------------
  // Captures

  /** The `filter` of `removeDeadStonesInDirection`: drop every stone equal to one of `group`. */
  function Without(stones: seq<Position>, group: seq<Position>): (r: seq<Position>)
    ensures forall s :: s in r <==> s in stones && s !in group
    ensures IsSubsequence(r, stones)
    ensures forall s :: multiset(r)[s] == if s in group then 0 else multiset(stones)[s]
  {
    Filter(stones, (s: Position) => !AnyEqual(group, s))
  }

  /** The own stones left by `removeDeadStonesInDirection(position, direction)`:
      nothing happens unless `position` (not the target) is on the board and the
      target holds an own stone; then the target's group is removed if the
      search found no liberty. */
  function AfterDirection(size: int, own: seq<Position>, other: seq<Position>, position: Position, d: Direction): (r: seq<Position>)
    ensures IsSubsequence(r, own)
  {
    SubsequenceOfSelf(own);
    var target := Step(d, position);
    if !IsInBoard(position, size) || !AnyEqual(own, target) then own
    else
      var search := ComputeGroupAndLiberties(size, own, other, target, [], []);
      if |search.liberties| == 0 then Without(own, search.stones) else own
  }

  /** `removeDeadStonesAroundPosition`: the four directions in the order up, down,
      left, right, each on the stones the previous one left. Together they never
      add a stone and keep the order of the rest. */
  function AfterAround(size: int, own: seq<Position>, other: seq<Position>, position: Position): (r: seq<Position>)
    ensures IsSubsequence(r, own)
    ensures forall s :: s in r ==> s in own
  {
    var up := AfterDirection(size, own, other, position, Up);
    var down := AfterDirection(size, up, other, position, Down);
    var left := AfterDirection(size, down, other, position, Left);
    var right := AfterDirection(size, left, other, position, Right);
    SubsequenceTransitive(down, up, own);
    SubsequenceTransitive(left, down, own);
    SubsequenceTransitive(right, left, own);
    SubsequenceElements(right, own);
    right
  }

  /** One direction removes nothing unless `position` is on the board, the target
      is an own stone and no stone of the target's group has a free neighbour;
      then it removes exactly that group (every copy of each of its stones), all
      of whose stones are joined to the target, and keeps every other stone with
      its multiplicity and the order of the rest. */
  lemma DirectionCaptures(size: int, own: seq<Position>, other: seq<Position>, position: Position, d: Direction)
    ensures var after := AfterDirection(size, own, other, position, d);
      var target := Step(d, position);
      var group := ComputeGroupAndLiberties(size, own, other, target, [], []).stones;
      && IsSubsequence(after, own)
      && ((!IsInBoard(position, size) || target !in own) ==> after == own)
      && ((IsInBoard(position, size) && target in own && HasFreeNeighbour(size, own, other, group)) ==> after == own)
      && (forall s :: s in own && s !in after ==>
            IsInBoard(position, size) && target in own && s in group && Connected(group, target, s)
            && !HasFreeNeighbour(size, own, other, group))
      && ((IsInBoard(position, size) && target in own && !HasFreeNeighbour(size, own, other, group)) ==>
            && target !in after
            && (forall s :: s in after <==> s in own && s !in group)
            && (forall s :: multiset(after)[s] == if s in group then 0 else multiset(own)[s]))
  {
    var target := Step(d, position);
    if IsInBoard(position, size) && target in own {
      GroupAndLiberties(size, own, other, target);
    }
  }

  // ---------------------------------------------------------------------------
  // The player object

  class Player {
    var color: GoGameModel.Color
    var stones: seq<Position>

    constructor (color: GoGameModel.Color)
      ensures this.color == color && stones == []
    {
      this.color := color;
      stones := [];
    }

    /** `hasStone(position)`: some stored position equals it. */
    function HasStone(position: Position): (r: bool)
      reads this
      ensures r <==> position in stones
    {
      AnyEqual(stones, position)
    }

    /** `rawAddStone`: append a position, no questions asked. */
    method RawAddStone(position: Position)
      modifies this
      ensures stones == old(stones) + [position] && color == old(color)
    {
      stones := stones + [position];
    }

    /** `removeDeadStonesInDirection(position, direction)`; `size` and
        `otherStones` stand for the root store's board size and the other
        player's stones. */
    method RemoveDeadStonesInDirection(position: Position, direction: Direction, size: int, otherStones: seq<Position>)
      modifies this
      ensures stones == AfterDirection(size, old(stones), otherStones, position, direction)
      ensures color == old(color)
    {
      var targetPosition := Step(direction, position);
      if !IsInBoard(position, size) {
        return;
      }
      if !HasStone(targetPosition) {
        return;
      }
      var search := ComputeGroupAndLiberties(size, stones, otherStones, targetPosition, [], []);
      if |search.liberties| == 0 {
        stones := Without(stones, search.stones);
      }
    }

    /** `removeDeadStonesAroundPosition(position)`. */
    method RemoveDeadStonesAroundPosition(position: Position, size: int, otherStones: seq<Position>)
      modifies this
      ensures stones == AfterAround(size, old(stones), otherStones, position)
      ensures IsSubsequence(stones, old(stones))
      ensures color == old(color)
    {
      RemoveDeadStonesInDirection(position, Up, size, otherStones);
      RemoveDeadStonesInDirection(position, Down, size, otherStones);
      RemoveDeadStonesInDirection(position, Left, size, otherStones);
      RemoveDeadStonesInDirection(position, Right, size, otherStones);
    }
  }
}
