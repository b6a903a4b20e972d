# Grid store of the pixel-ad canvas, in Dafny

This project models the state store behind a "million dollar page"-style grid
canvas (`src/stores/gridStore.ts`). Users drag across grid cells to select a
rectangle and buy it as a block that hosts an image and a link.

The store has three parts:

- **Derived selection rectangle.** A drag selection holds the two touched
  cells in gesture order. `GridGeometry.Derive` turns them into a normalised,
  inclusive rectangle: the smaller corner, and one more cell than the
  distance. It also gives the pixel projection at 12 pixels per cell.
  `GridStore.Store.SelectionRect` is the store's computed value over its
  current selection.
- **Overlap detector.** `GridGeometry.Intersects` is the open-interval
  rectangle test. `GridStore.Store.IsAreaOccupied` is the loop over the
  committed blocks that returns on the first hit.
- **Selection state machine and purchase.** `GridStore.Store` is a class
  with the store's fields: `blocks`, `isLoading`, `isSelecting`, `selection`
  and `nextBlockId`. Its methods are the store's actions. The selection is an
  object of class `GridStore.Selection`, whose end corner is moved in place.
  `PurchaseBlock` appends a block stamped with the next id and clears the
  selection. Without a selection it does nothing.

`GridStore.Store.Valid` is the invariant every action keeps:

- the counter is at least 1 and above every committed id;
- ids strictly increase in insertion order;
- every block spans at least one cell.

It deliberately says nothing about blocks not overlapping. `purchaseBlock`
never consults the overlap detector, so overlapping blocks can be committed.

Two client methods show what a caller can derive from the contracts alone.
`TwoPurchases` shows that successive purchases get consecutive ids and that an
ignored purchase consumes none. `PurchaseScenario` drags from (2,2) to (5,4),
buys the area, and then probes it with the overlap detector.

## Model

| member | source | states |
|---|---|---|
| GridGeometry.Derive | src/stores/gridStore.ts:35-56 | width and height are at least 1; the first and last column (row) of the rectangle are exactly the two touched columns (rows), so it is the smallest inclusive rectangle holding both corners; the pixel fields are the grid fields times 12 |
| GridGeometry.DeriveIgnoresDragDirection | src/stores/gridStore.ts:39-42 | the rectangle is the same whichever way the drag went: swapping the x corners, the y corners, or both changes nothing |
| GridGeometry.DeriveSingleCell | src/stores/gridStore.ts:39-50 | a drag that has not moved yields a 1-by-1 rectangle at that cell, 12 by 12 pixels |
| GridGeometry.Intersects | src/stores/gridStore.ts:61-71 | the open-interval test x1 < bx2 && x2 > bx1 && y1 < by2 && y2 > by1, where x2 = x + width and y2 = y + height; its contract states that rectangles meeting exactly on either axis (sharing only an edge or a corner) never overlap |
| GridGeometry.IntersectsSymmetric | src/stores/gridStore.ts:61-71 | the overlap test gives the same answer with its two rectangles swapped |
| GridGeometry.IntersectsIffSharedCell | src/stores/gridStore.ts:61-71 | for rectangles at least one cell wide and high, the overlap test holds exactly when some grid cell lies in both |
| GridGeometry.NonEmptyIntersectsItself | src/stores/gridStore.ts:71 | a rectangle at least one cell wide and high overlaps itself, so a just-bought area reads as occupied |
| GridStore.IncreasingIdsAreDistinct | src/stores/gridStore.ts:105 | strictly increasing block ids are pairwise distinct |
| GridStore.AppendLargerIdKeepsIncreasing | src/stores/gridStore.ts:105-115 | appending a block whose id exceeds every earlier id keeps the ids strictly increasing |
| GridStore.Selection.constructor | src/stores/gridStore.ts:81 | a new selection has both corners at the start cell |
| GridStore.Store.constructor | src/stores/gridStore.ts:27-31 | the store starts with no blocks, not loading, not selecting, no selection, and the counter at 1 (id 0 is left to the seed data) |
| GridStore.Store.SelectionRect | src/stores/gridStore.ts:35-56 | absent exactly when there is no selection; otherwise at least one cell wide and high |
| GridStore.Store.IsAreaOccupied | src/stores/gridStore.ts:60-76 | returns true exactly when some committed block overlaps the candidate under the open-interval test, false on an empty store; changes nothing |
| GridStore.Store.StartSelection | src/stores/gridStore.ts:79-82 | selecting becomes true and a fresh selection has both corners at (x, y), so the derived rectangle is (x, y, 1, 1); nothing else changes |
| GridStore.Store.UpdateSelection | src/stores/gridStore.ts:84-88 | with no drag in progress or no selection nothing changes; otherwise only the end corner moves to (x, y), the start corner and every store field stay, and the derived rectangle spans the old start and (x, y) |
| GridStore.Store.EndSelection | src/stores/gridStore.ts:90-92 | selecting becomes false; the selection and its derived rectangle are kept |
| GridStore.Store.ClearSelection | src/stores/gridStore.ts:94-97 | unconditionally removes the selection and stops selecting, so the derived rectangle is absent |
| GridStore.Store.PurchaseBlock | src/stores/gridStore.ts:100-117 | without a selection nothing changes; otherwise exactly one block is appended, with the old counter as id, the derived grid rectangle as area, the payload and the fixed owner; the counter grows by 1, the new id exceeds every earlier id, earlier blocks are untouched, the selection is cleared and the store invariant is kept |
| GridStore.Store.FetchBlocks | src/stores/gridStore.ts:119-136 | the blocks become the single seed block (id 0 at (2,2), 4 by 3) and loading ends false; the counter is unchanged and the store invariant is kept |
| GridStore.Store.IdsAreUnique | src/stores/gridStore.ts:105 | in a store that keeps its invariant no two committed blocks share an id |
| GridStore.TwoPurchases | src/stores/gridStore.ts:100-117 | from any valid store, two successful purchases with an ignored one in between add two blocks with ids old counter and old counter + 1 |
| GridStore.PurchaseScenario | src/stores/gridStore.ts:60-117 | dragging (2,2) to (5,4) and buying yields block 1 at (2,2), 4 by 3; that area is then occupied and the cell (6,2) next to it is free |

## Left out

- The reactive wrappers (`defineStore`, `ref`, `computed`) are replaced by class fields and a function that recomputes the selection rectangle on demand. Change notification to the renderer is not modelled.
- The 300 ms timer and the `await` in `fetchBlocks` are left out. `GridStore.Store.FetchBlocks` performs the load synchronously, so the window during which `isLoading` is true is not observable in the model.
- Coordinates and ids are unbounded integers. The source uses JavaScript numbers, so fractional coordinates and precision loss past 2^53 are not modelled.
- The payload strings are carried through verbatim; their contents have no logic.
- The selection object is moved in place, but whether the renderer holds an alias to it is outside the model.
- The rendering component that reads the selection rectangle and calls the overlap detector is not part of this model.
- No invariant says that committed blocks never overlap, because the source does not enforce it.
