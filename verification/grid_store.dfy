/** The grid store: committed blocks, the id counter, and the drag-selection
    state machine, with the purchase action that turns the current selection
    into a block. */
module GridStore {
  import opened GridGeometry

  /** Owner stamped on every purchased block. */
  const PurchaseOwner: string := "Usu\U{e1}rio Atual"

  /** The block the initial load installs. */
  const SeedBlock: Block :=
    Block(0, 2, 2, 4, 3,
          "https://placehold.co/80x60/f03/fff?text=Vue.js", "https://vuejs.org",
          "Vue", Some("#9d021d"))

  /** Block ids strictly increase along the sequence. */
  ghost predicate IdsIncreasing(bs: seq<Block>) {
    forall i, j :: 0 <= i < j < |bs| ==> bs[i].id < bs[j].id
  }

  /** Strictly increasing ids are pairwise distinct. */
  lemma IncreasingIdsAreDistinct(bs: seq<Block>)
    requires IdsIncreasing(bs)
    ensures forall i, j :: 0 <= i < |bs| && 0 <= j < |bs| && i != j ==> bs[i].id != bs[j].id
  {
  }

  /** Appending a block whose id exceeds every earlier id keeps ids increasing. */
  lemma AppendLargerIdKeepsIncreasing(bs: seq<Block>, b: Block)
    requires IdsIncreasing(bs)
    requires forall i :: 0 <= i < |bs| ==> bs[i].id < b.id
    ensures IdsIncreasing(bs + [b])
  {
  }

  /** The two cells touched by a drag, in gesture order; the end corner is
      moved in place while the pointer moves. */
  class Selection {
    var startX: int
    var startY: int
    var endX: int
    var endY: int

    constructor (x: int, y: int)
      ensures startX == x && startY == y && endX == x && endY == y
    {
      startX, startY, endX, endY := x, y, x, y;
    }
  }

  class Store {
    var blocks: seq<Block>
    var isLoading: bool
    var isSelecting: bool
    var selection: Selection?
    var nextBlockId: int

    /** What the store keeps true: the counter stays above every committed
        id, ids increase in insertion order, and every block spans at least
        one cell. Non-overlap of blocks is not part of it. */
    ghost predicate Valid()
      reads this
    {
      nextBlockId >= 1 &&
      IdsIncreasing(blocks) &&
      (forall i :: 0 <= i < |blocks| ==> blocks[i].id < nextBlockId) &&
      (forall i :: 0 <= i < |blocks| ==> blocks[i].width >= 1 && blocks[i].height >= 1)
    }

    constructor ()
      ensures Valid()
      ensures blocks == [] && !isLoading && !isSelecting && selection == null
      ensures nextBlockId == 1
    {
      blocks := [];
      isLoading := false;
      isSelecting := false;
      selection := null;
      nextBlockId := 1;
    }

    /** The computed selection rectangle: absent exactly when there is no
        selection, otherwise the normalised rectangle of its two corners. */
    function SelectionRect(): (r: Option<DerivedRect>)
      reads this, selection
      ensures r.None? <==> selection == null
      ensures r.Some? ==> r.value.blockWidth >= 1 && r.value.blockHeight >= 1
    {
      if selection == null then None
      else Some(Derive(selection.startX, selection.startY, selection.endX, selection.endY))
    }

    /** Whether some committed block overlaps rect; scans blocks in order
        and stops at the first hit. */
    method IsAreaOccupied(rect: Rect) returns (occupied: bool)
      ensures occupied <==> exists i :: 0 <= i < |blocks| && Intersects(rect, blocks[i].Area())
      ensures blocks == [] ==> !occupied
    {
      var i := 0;
      while i < |blocks|
        invariant 0 <= i <= |blocks|
        invariant forall k :: 0 <= k < i ==> !Intersects(rect, blocks[k].Area())
      {
        if Intersects(rect, blocks[i].Area()) {
          return true;
        }
        i := i + 1;
      }
      return false;
    }

    /** Begins a drag at (x, y): a fresh one-cell selection. */
    method StartSelection(x: int, y: int)
      modifies this`isSelecting, this`selection
      ensures isSelecting
      ensures selection != null && fresh(selection)
      ensures selection.startX == x && selection.startY == y
      ensures selection.endX == x && selection.endY == y
      ensures SelectionRect() == Some(Derive(x, y, x, y))
      ensures SelectionRect().value.Grid() == Rect(x, y, 1, 1)
    {
      isSelecting := true;
      selection := new Selection(x, y);
      DeriveSingleCell(x, y);
    }

    /** Moves the end corner of an active drag; ignored when no drag is in
        progress or there is no selection. */
    method UpdateSelection(x: int, y: int)
      modifies selection
      ensures unchanged(this)
      ensures !isSelecting || selection == null ==> selection == null || unchanged(selection)
      ensures isSelecting && selection != null ==>
        selection.endX == x && selection.endY == y &&
        selection.startX == old(selection.startX) && selection.startY == old(selection.startY)
      ensures isSelecting && selection != null ==>
        SelectionRect() == Some(Derive(old(selection.startX), old(selection.startY), x, y))
    {
      if !isSelecting || selection == null {
        return;
      }
      selection.endX := x;
      selection.endY := y;
    }

    /** Ends the drag but keeps the selection for a later purchase. */
    method EndSelection()
      modifies this`isSelecting
      ensures !isSelecting
      ensures selection == old(selection)
      ensures SelectionRect() == old(SelectionRect())
    {
      isSelecting := false;
    }

    /** Discards the selection, whatever the current state. */
    method ClearSelection()
      modifies this`selection, this`isSelecting
      ensures selection == null && !isSelecting
      ensures SelectionRect() == None
    {
      selection := null;
      isSelecting := false;
    }

    /** Commits the current selection rectangle as a new block with the next
        id and clears the selection; a silent no-op without a selection.
        Overlap with existing blocks is not checked. */
    method PurchaseBlock(image: string, link: string, backgroundColor: string)
      requires Valid()
      modifies this
      ensures Valid()
      ensures old(SelectionRect()).None? ==> unchanged(this)
      ensures old(SelectionRect()).Some? ==>
        var r := old(SelectionRect()).value;
        blocks == old(blocks) + [Block(old(nextBlockId), r.blockX, r.blockY, r.blockWidth, r.blockHeight,
                                       image, link, PurchaseOwner, Some(backgroundColor))] &&
        nextBlockId == old(nextBlockId) + 1 &&
        selection == null && !isSelecting && isLoading == old(isLoading)
      ensures old(SelectionRect()).Some? ==>
        blocks[|blocks| - 1].Area() == old(SelectionRect()).value.Grid() &&
        forall i :: 0 <= i < |old(blocks)| ==> blocks[i].id < blocks[|blocks| - 1].id
    {
      var rect := SelectionRect();
      if rect.None? {
        return;
      }
      var r := rect.value;
      var newBlock := Block(nextBlockId, r.blockX, r.blockY, r.blockWidth, r.blockHeight,
                            image, link, PurchaseOwner, Some(backgroundColor));
      nextBlockId := nextBlockId + 1;
      AppendLargerIdKeepsIncreasing(blocks, newBlock);
      blocks := blocks + [newBlock];
      ClearSelection();
    }

    /** The effect of the initial load: the committed blocks become the
        single seed block; the counter is left as it is. */
    method FetchBlocks()
      requires Valid()
      modifies this`blocks, this`isLoading
      ensures Valid()
      ensures blocks == [SeedBlock] && !isLoading
      ensures nextBlockId == old(nextBlockId)
    {
      isLoading := true;
      blocks := [SeedBlock];
      isLoading := false;
    }

    /** In a valid store no two committed blocks share an id. */
    lemma IdsAreUnique()
      requires Valid()
      ensures forall i, j :: 0 <= i < |blocks| && 0 <= j < |blocks| && i != j ==>
        blocks[i].id != blocks[j].id
    {
      IncreasingIdsAreDistinct(blocks);
    }
  }

  /** Two purchases in a row receive consecutive, increasing ids, and an
      ignored purchase in between consumes none. */
  method TwoPurchases(s: Store, x: int, y: int)
    requires s.Valid()
    modifies s
    ensures s.Valid()
    ensures |s.blocks| == |old(s.blocks)| + 2
    ensures s.blocks[|s.blocks| - 2].id == old(s.nextBlockId)
    ensures s.blocks[|s.blocks| - 1].id == old(s.nextBlockId) + 1
    ensures s.nextBlockId == old(s.nextBlockId) + 2
  {
    s.StartSelection(x, y);
    s.PurchaseBlock("i", "l", "c");
    s.PurchaseBlock("i", "l", "c");
    s.StartSelection(x, y);
    s.EndSelection();
    s.PurchaseBlock("i", "l", "c");
  }

  /** Drag from (2,2) to (5,4), buy it, and probe the occupied area: the
      bought rectangle is occupied, the cell just right of it is free. */
  method PurchaseScenario() returns (bought: Block, occupiedSame: bool, occupiedRight: bool)
    ensures bought == Block(1, 2, 2, 4, 3, "a", "b", PurchaseOwner, Some("#fff"))
    ensures occupiedSame && !occupiedRight
  {
    var s := new Store();
    s.StartSelection(2, 2);
    s.UpdateSelection(5, 4);
    assert s.SelectionRect().value.Grid() == Rect(2, 2, 4, 3);
    s.PurchaseBlock("a", "b", "#fff");
    bought := s.blocks[0];
    assert s.blocks == [bought];
    occupiedSame := s.IsAreaOccupied(Rect(2, 2, 4, 3));
    assert Intersects(Rect(2, 2, 4, 3), s.blocks[0].Area());
    occupiedRight := s.IsAreaOccupied(Rect(6, 2, 1, 1));
  }
}
