# Go rules engine — a Dafny model

This project models the rules engine of a small Go game written in TypeScript
with mobx-keystone. It covers two revisions of the engine.

- **`GoGame`** (`go_game.dfy`, module `GoGameModel`) keeps one list of stones,
  each a row, a column and a colour, plus a turn counter. Its `addStone` works
  in three steps:
  - it places the stone on a draft copy of the game;
  - it removes the opponent groups around the new stone that have no liberty
    left;
  - it refuses the move if the point was already occupied on the committed
    board, or if the mover's own group has no liberty on the draft; otherwise
    it commits the draft.
- **`Player`** (`player.dfy`, module `PlayerModel`) belongs to the later
  revision: each player object keeps its own list of positions. Groups and
  liberties are found by a search in the four directions that threads a list
  of liberties and a list of stones.
- **`Position`** (`position.dfy`, module `PositionModel`) is the 1-based
  coordinate value type, with its bounds test and its equality.

## How the model is built

- **Pure and state-changing parts are split.**
  - The flood fills, the capture rule and the outcome of a move are functions
    over plain sequences. This lets the draft board be analysed as a value.
  - The objects are Dafny classes. Their methods update `turn` and `stones` in
    place, as the source does. Each method's `ensures` ties the new state to
    those functions.
  - Lemmas prove what the functions mean: closure and connectedness of a
    group, the liberty characterisation, which stones a capture may remove, the suicide rule, and
    the board invariant "one stone per point".
- **Integers.** TypeScript numbers are modelled as unbounded integers. The
  source's `turn % 2 === 0` test agrees with Dafny's `%` for every integer turn.
- **Termination.** Each flood fill terminates because every exploration lowers
  the number of own stones not yet visited (`Unvisited`).
- **Storage order is kept.** Captures keep the order of the remaining stones
  (`IsSubsequence`).
- **Where the code departs from the usual rules of Go, the model follows the
  code:**
  - `GoGame.addStone` has no bounds check, so an off-board point can be
    played (`GoGameModel.OffBoardMoveAccepted`).
  - The `GoGame` liberty count adds one per visited stone and empty
    neighbour. An empty point shared by two stones of a group is counted twice
    (`GoGameModel.SharedLibertyCountedTwice`). Only whether the count is zero
    is used by the engine, and that is what the model characterises.
  - The occupancy test of `addStone` reads the committed board, not the draft.
  - The `GoGame` search inspects a neighbour only behind the guards
    `i > 1`, `j > 1`, `i < size` and `j < size`. A search that starts from an
    on-board stone therefore never enters an off-board one. A group is taken
    under this inspected-neighbour relation; when every stone is on the board,
    that is the 4-connected group. A capture can thus split a group that
    straddles the edge: White's move (1,2) on a 2×2 board captures the black
    (1,1) and leaves its orthogonally adjacent partner (0,1)
    (`GoGameModel.EdgeGroupSplit`).
- **Other behaviours of the source that the model keeps:**
  - `Player.removeDeadStonesInDirection` checks that the *source* position is
    on the board, not the target.
  - `Player.computeGroupAndLiberties` appends an explored stone again after
    its own exploration, so its group list may name a stone twice
    (`PlayerModel.GroupListMayRepeat`).

## Model

| member | source | states |
|---|---|---|
| GoGameModel.NegateColor | src/models/GoGame.model.ts:7 | the negated colour differs from the input |
| GoGameModel.NegateColorInvolution | src/models/GoGame.model.ts:7 | negating twice gives back the colour |
| GoGameModel.OpponentColor | src/models/GoGame.model.ts:26-28 | the opponent colour differs from the current colour and negates to it |
| GoGameModel.CurrentColor | src/models/GoGame.model.ts:21-24 | black is to play iff the turn is odd, white iff it is even |
| GoGameModel.TurnsAlternate | src/models/GoGame.model.ts:16-28 | k turns later the colour to play is the same if k is even, the opponent if k is odd |
| GoGameModel.FindStone | src/models/GoGame.model.ts:55-57 | a found stone is stored and lies on (i, j); nothing is found iff no stored stone lies there |
| GoGameModel.FindStoneFirst | src/models/GoGame.model.ts:55-57 | the stone found is the earliest stored one on that point |
| GoGameModel.FindStoneOnUniqueBoard | src/models/GoGame.model.ts:55-57 | with one stone per point, finding a stored stone's point returns that stone |
| GoGameModel.Neighbours | src/models/GoGame.model.ts:97-136 | the guarded neighbours inspected by the four blocks are at most four points, each orthogonally adjacent to the point |
| GoGameModel.NeighboursAreOrthogonal | src/models/GoGame.model.ts:97-136 | for an in-board point the inspected neighbours are exactly its in-board orthogonal neighbours |
| GoGameModel.ComputeGroupAndLiberties | src/models/GoGame.model.ts:93-94 | the result's stone list extends the accumulator with the start point |
| GoGameModel.ScanNeighbours | src/models/GoGame.model.ts:96-138 | the four direction blocks only extend the stone list and never lower the count |
| GoGameModel.ComputeClosed | src/models/GoGame.model.ts:93-139 | every target-coloured neighbour of a listed stone is listed, except where the caller already visited |
| GoGameModel.ScanClosed | src/models/GoGame.model.ts:96-136 | inspected target-coloured neighbours end up in the list, and the list is closed outside the accumulator |
| GoGameModel.ScanClosedExplore | src/models/GoGame.model.ts:101-105 | the closure holds when the first inspected neighbour is explored recursively |
| GoGameModel.ComputeMembers | src/models/GoGame.model.ts:93-139 | the list holds only the accumulator, the start point and target-coloured stones |
| GoGameModel.ScanMembers | src/models/GoGame.model.ts:96-136 | the direction blocks add only target-coloured stones |
| GoGameModel.ScanMembersExplore | src/models/GoGame.model.ts:101-105 | the same when the first inspected neighbour is explored |
| GoGameModel.ExploredPointsAreStones | src/models/GoGame.model.ts:101-105 | an explored group adds no empty point to the list |
| GoGameModel.ComputeNoLiberty | src/models/GoGame.model.ts:93-139 | a count of zero means that no listed stone has an empty inspected neighbour outside the accumulator |
| GoGameModel.ScanNoLiberty | src/models/GoGame.model.ts:96-136 | if the direction blocks add nothing to the count, every empty inspected neighbour was already visited |
| GoGameModel.ScanNoLibertyExplore | src/models/GoGame.model.ts:101-105 | the same when the first inspected neighbour is explored |
| GoGameModel.ComputeWitness | src/models/GoGame.model.ts:93-139 | a positive count comes from a listed stone with an empty inspected neighbour |
| GoGameModel.ScanWitness | src/models/GoGame.model.ts:96-136 | an increase of the count is witnessed by a listed stone and an empty neighbour |
| GoGameModel.ScanWitnessExplore | src/models/GoGame.model.ts:101-105 | the same when the first inspected neighbour is explored |
| GoGameModel.ChainToBase | src/models/GoGame.model.ts:93-139 | when every listed point outside a base was reached from an earlier one, each listed point ends a chain of listed inspected neighbours that starts in the base |
| GoGameModel.ReachedJoin | src/models/GoGame.model.ts:96-136 | a list extended by a later direction block stays reached from the same base |
| GoGameModel.ReachedExtend | src/models/GoGame.model.ts:101-105 | appending the group explored from an inspected neighbour keeps the list reached from the accumulator |
| GoGameModel.ComputeReached | src/models/GoGame.model.ts:93-139 | every listed point outside the accumulator and the start is an inspected neighbour of a point listed before it |
| GoGameModel.ScanReached | src/models/GoGame.model.ts:96-136 | the direction blocks add only points reached from earlier listed points |
| GoGameModel.ScanReachedJoin | src/models/GoGame.model.ts:96-136 | a scan started from a list reached from a base set stays reached from that base |
| GoGameModel.ScanReachedExplore | src/models/GoGame.model.ts:101-105 | when the first inspected neighbour is explored, the rest of the scan stays reached from the accumulator |
| GoGameModel.ExploredReached | src/models/GoGame.model.ts:101-105 | the group explored from an unlisted inspected neighbour, appended to the list, is reached from the list, and the count of unvisited stones does not grow |
| GoGameModel.GroupAndLiberties | src/models/GoGame.model.ts:93-139 | from an occupied point the list starts at the point, holds target-coloured stones after it, is closed under target-coloured neighbours, and joins every listed point to the start by a chain of listed neighbours (so it is exactly the group under the inspected-neighbour relation of lines 97, 107, 117 and 127, which is the 4-connected group when every stone is on the board); the count is zero iff no listed stone has an empty neighbour |
| GoGameModel.CornerBelow | src/models/GoGame.model.ts:117-125 | concrete exploration used by SharedLibertyCountedTwice |
| GoGameModel.CornerRight | src/models/GoGame.model.ts:127-135 | concrete exploration used by SharedLibertyCountedTwice |
| GoGameModel.SharedLibertyCountedTwice | src/models/GoGame.model.ts:96-136 | one empty point shared by two stones of a group contributes 2 to the count |
| GoGameModel.DeadGroupAt | src/models/GoGame.model.ts:63-68 | a neighbour block yields a group iff the neighbour holds an opponent stone whose group has no empty neighbour; the group starts at that neighbour |
| GoGameModel.StonesToRemove | src/models/GoGame.model.ts:60-86 | a point is to be removed iff it lies in the dead group found from one of the inspected neighbours |
| GoGameModel.RemovePoints | src/models/GoGame.model.ts:88-90 | a stone is kept iff it was stored and its point is not to be removed, with its multiplicity; stones on removed points all go; the order is kept |
| GoGameModel.AfterCaptures | src/models/GoGame.model.ts:60-91 | the stones left keep their order, and every stone removed lies on a point whose first stored stone is the opponent's |
| GoGameModel.DeadGroupsMembers | src/models/GoGame.model.ts:60-86 | a point is to be removed iff it lies in the dead group found from one of the inspected neighbours |
| GoGameModel.DeadGroupsAppend | src/models/GoGame.model.ts:61-86 | the removal list of consecutive neighbour blocks is the concatenation of their lists |
| GoGameModel.DeadGroupsGuarded | src/models/GoGame.model.ts:63-68 | a guarded neighbour block contributes its dead group only when its guard holds |
| GoGameModel.StonesToRemoveInOrder | src/models/GoGame.model.ts:60-86 | the removal list is the up, left, down and right blocks concatenated in the source's order |
| GoGameModel.CollectedBlocks | src/models/GoGame.model.ts:61-90 | filtering out the four blocks' lists, collected in order on the same board, gives the capture function |
| GoGameModel.AppendDeadGroup | src/models/GoGame.model.ts:63-68 | one guarded block appends exactly the neighbour's dead group, and with it every stone of a liberty-less opponent group there |
| GoGameModel.ConnectedWithin | src/models/GoGame.model.ts:60-86 | a chain inside one dead group is a chain inside the whole removal list |
| GoGameModel.CapturedGroups | src/models/GoGame.model.ts:60-91 | every point to be removed holds an opponent stone, is joined through removed inspected neighbours to an inspected neighbour of the played point, has no empty inspected neighbour, and its inspected opponent neighbours are removed with it; every stone of the group of an inspected opponent neighbour without a liberty is removed |
| GoGameModel.CapturesRemoveOpponentStones | src/models/GoGame.model.ts:60-91 | captures keep storage order and one stone per point, remove only opponent stones and keep every other stone with its multiplicity |
| GoGameModel.Move | src/models/GoGame.model.ts:32-48 | a move is refused as occupied iff the committed board has a stone on the point; an accepted move yields the draft after placement and captures |
| GoGameModel.NewStoneSurvives | src/models/GoGame.model.ts:35-36 | on an empty point the placed stone survives the captures and is the stone found there |
| GoGameModel.MoveOutcome | src/models/GoGame.model.ts:32-48 | suicide iff the point is empty and the new group has no liberty after captures; an accepted move keeps the new stone and all of the mover's stones, removes only opponent stones, keeps one stone per point and leaves the new group a liberty |
| GoGameModel.OffBoardMoveAccepted | src/models/GoGame.model.ts:32-48 | an off-board point is accepted on an empty board of size 2 or more |
| GoGameModel.RemovePointsKeep | src/models/GoGame.model.ts:88-90 | a board with no stone on a listed point is left as it is |
| GoGameModel.EdgeStoneAccepted | src/models/GoGame.model.ts:32-48 | Black's off-board move (0,1) beside its stone (1,1) on a 2×2 board is accepted and appended |
| GoGameModel.EdgeCaptureAccepted | src/models/GoGame.model.ts:32-48 | White's move (1,2) on that board is accepted and removes the black (1,1) only |
| GoGameModel.EdgeNotInspected | src/models/GoGame.model.ts:97 | (0,1) is orthogonally adjacent to (1,1), yet the guard `i > 1` keeps a search from (1,1) from inspecting it |
| GoGameModel.EdgeGroupSplit | src/models/GoGame.model.ts:32-48 | a capture can split a group that straddles the edge: the two moves above leave (0,1) on the board after removing its adjacent partner (1,1) |
| GoGameModel.MoveCases | src/models/GoGame.model.ts:32-48 | the two tests of `addStone`, occupancy on the committed board and liberties on the draft, accept exactly the placed moves, commit exactly the draft, and keep one stone per point |
| GoGameModel.GoGame.constructor | src/models/GoGame.model.ts:10-14 | a new game has the given size, turn 1, no stones, and is valid |
| GoGameModel.GoGame.Draft | src/models/GoGame.model.ts:33 | the draft copies size, turn and stones |
| GoGameModel.GoGame.NextTurn | src/models/GoGame.model.ts:17-19 | the turn goes up by one, the stones are unchanged, the colour to play becomes the former opponent, and validity is kept |
| GoGameModel.GoGame.RawAddStone | src/models/GoGame.model.ts:51-53 | the stone is appended to the list; the turn is unchanged |
| GoGameModel.GoGame.RemoveDeadStonesAroundPosition | src/models/GoGame.model.ts:60-91 | the new stone list is the capture function applied to the old one for the opponent colour |
| GoGameModel.GoGame.AddStone | src/models/GoGame.model.ts:32-48 | the result is true iff the move is placed; the stones become the committed draft on success and stay unchanged otherwise; the turn is unchanged; one stone per point is kept |
| PlayerModel.Step | src/models/Player.model.ts:7-10 | a direction moves exactly one coordinate by one |
| PlayerModel.StepsAreInverse | src/models/Player.model.ts:7-10 | opposite directions undo each other, and the four steps reach four different positions |
| PlayerModel.AllDirections | src/models/Player.model.ts:58 | every direction is searched |
| PlayerModel.AnyEqual | src/models/Player.model.ts:18 | some listed position equals p iff p is in the list |
| PlayerModel.ComputeGroupAndLiberties | src/models/Player.model.ts:51-64 | the stone list extends the accumulator with the start position; the liberty list extends the given one |
| PlayerModel.SearchDirections | src/models/Player.model.ts:58-63 | the reduce over the directions only extends both lists |
| PlayerModel.SearchInDirection | src/models/Player.model.ts:66-94 | one direction only extends both lists |
| PlayerModel.ComputeMembers | src/models/Player.model.ts:51-64 | the stone list holds only the accumulator, the start and own stones |
| PlayerModel.DirectionsMembers | src/models/Player.model.ts:58-63 | the reduce adds only own stones |
| PlayerModel.InDirectionMembers | src/models/Player.model.ts:83-88 | one direction adds only own stones |
| PlayerModel.ComputeLiberties | src/models/Player.model.ts:51-64 | if the given liberties are free points listed once, so are the result's |
| PlayerModel.DirectionsLiberties | src/models/Player.model.ts:58-63 | the reduce keeps the liberties free and without repetition |
| PlayerModel.InDirectionLiberties | src/models/Player.model.ts:76-93 | a direction adds a liberty only if it is free and not yet listed |
| PlayerModel.ComputeCovered | src/models/Player.model.ts:51-64 | every listed stone outside the accumulator has each in-board neighbour listed as a stone or a liberty, or holding an opponent stone |
| PlayerModel.DirectionsCovered | src/models/Player.model.ts:58-63 | every searched direction of the start is handled, and the listed stones stay covered |
| PlayerModel.InDirectionCovered | src/models/Player.model.ts:72-93 | the searched direction is handled, and the listed stones stay covered |
| PlayerModel.ComputeWitness | src/models/Player.model.ts:51-64 | a new liberty comes from a listed stone with a free neighbour |
| PlayerModel.DirectionsWitness | src/models/Player.model.ts:58-63 | the same for the reduce |
| PlayerModel.InDirectionWitness | src/models/Player.model.ts:72-93 | the same for one direction |
| PlayerModel.ChainToBase | src/models/Player.model.ts:51-94 | when every listed position outside a base was reached from an earlier one, each listed position ends a chain of single steps through listed positions that starts in the base |
| PlayerModel.ReachedJoin | src/models/Player.model.ts:58-63 | a list extended by a later direction stays reached from the same base |
| PlayerModel.ComputeReached | src/models/Player.model.ts:51-64 | every listed stone outside the accumulator and the start is one step from a stone listed before it |
| PlayerModel.DirectionsReached | src/models/Player.model.ts:58-63 | the reduce adds only stones one step from earlier listed ones |
| PlayerModel.InDirectionReached | src/models/Player.model.ts:83-88 | an explored direction adds only stones one step from earlier listed ones, including the re-appended target |
| PlayerModel.NearGrows | src/models/Player.model.ts:58-63 | liberties near a stone list stay near any extension of it |
| PlayerModel.ComputeNear | src/models/Player.model.ts:51-64 | every liberty found is one step from a listed stone |
| PlayerModel.DirectionsNear | src/models/Player.model.ts:58-63 | the same for the reduce |
| PlayerModel.InDirectionNear | src/models/Player.model.ts:83-93 | a direction adds a liberty only one step from the searched stone |
| PlayerModel.GroupAndLiberties | src/models/Player.model.ts:51-94 | from an own stone the list starts at it, holds only own stones and joins every listed stone to the start by single steps; it contains every in-board own stone next to a listed stone (so it is exactly the 4-connected group when every own stone is on the board; an off-board own stone is never entered from a neighbour); the liberties are exactly the free points next to listed stones, each listed once; none iff no listed stone has a free neighbour |
| PlayerModel.SecondStoneExplored | src/models/Player.model.ts:83-88 | concrete exploration used by GroupListMayRepeat |
| PlayerModel.GroupListMayRepeat | src/models/Player.model.ts:83-88 | an explored stone is appended again, so the group list can repeat it |
| PlayerModel.Without | src/models/Player.model.ts:47 | a stone is kept iff it was stored and is not in the group, with its multiplicity; stones of the group all go; the order is kept |
| PlayerModel.AfterDirection | src/models/Player.model.ts:35-49 | one direction only deletes stones, keeping the order of the rest |
| PlayerModel.DirectionCaptures | src/models/Player.model.ts:35-49 | nothing changes unless the source is on the board, the target is an own stone and its group has no free neighbour; only stones of that group, each joined to the target, are removed; such a group is removed whole, every other stone is kept with its multiplicity, and the order is kept |
| PlayerModel.AfterAround | src/models/Player.model.ts:27-32 | the four directions only remove stones and keep the order |
| PlayerModel.Player.constructor | src/models/Player.model.ts:13-16 | a new player has the given colour and no stones |
| PlayerModel.Player.HasStone | src/models/Player.model.ts:17-19 | true iff the position is among the player's stones |
| PlayerModel.Player.RawAddStone | src/models/Player.model.ts:21-24 | the position is appended |
| PlayerModel.Player.RemoveDeadStonesInDirection | src/models/Player.model.ts:34-49 | the stones become the one-direction capture of the old stones |
| PlayerModel.Player.RemoveDeadStonesAroundPosition | src/models/Player.model.ts:26-32 | the stones become the four-direction capture of the old stones, a subsequence of them |
| PositionModel.IsInBoard | src/models/Position.model.ts:13-15 | no position is on a board of size below 1 |
| PositionModel.InBoardMonotone | src/models/Position.model.ts:13-15 | a position on a board stays on every larger board |
| PositionModel.Equal | src/models/Position.model.ts:17-19 | `equal` coincides with value equality |
| PositionModel.EqualIsEquivalence | src/models/Position.model.ts:17-19 | `equal` is reflexive, symmetric and transitive |
| Sequences.Filter | src/models/GoGame.model.ts:88-90 | the kept elements are exactly those satisfying the predicate, each with its multiplicity, in their original order |

## Left out

- The mobx-keystone machinery (`@model`, `@modelAction`, `draft`, `commit`, observability). The draft is a second `GoGame` object, and committing copies its stone list.
- `getRoot`, `board` and `otherPlayer` in `Player`: the board size and the other player's stones are parameters of the methods. The `color` field is kept, but nothing in the modelled operations reads it.
- `createRootStore.ts` and `GoBoard.tsx` (store creation and rendering) are not part of this model. Neither are the ko rule, scoring or history, which the source does not implement.
- TypeScript numbers are unbounded integers; fractional coordinates are not modelled.
- GoGameModel.GroupAndLiberties: states only whether the liberty count is zero, not its exact value, because the engine only compares it with zero. `SharedLibertyCountedTwice` shows that it is not the number of distinct liberties.
- GoGameModel.GroupAndLiberties: requires the start point to be occupied. From an empty start the count can be zero while an empty point next to the group exists (the start itself), and the source only calls it on a stone.
- PlayerModel.GroupAndLiberties: requires the start to be an own stone, which is how `removeDeadStonesInDirection` calls it. From another start, that start sits in the group list even when it is free.
