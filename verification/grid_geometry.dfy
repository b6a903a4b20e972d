/** Value types and pure geometry of the pixel-ad grid store:
    committed blocks, the rectangle derived from a drag selection,
    and the open-interval overlap test. */
module GridGeometry {

  datatype Option<T> = None | Some(value: T)

  /** Pixels per grid cell in the projection handed to the renderer. */
  const CellSize: int := 12

  /** An axis-aligned grid rectangle: cells x .. x+width-1, y .. y+height-1. */
  datatype Rect = Rect(x: int, y: int, width: int, height: int)

  /** A committed block. The payload strings are carried verbatim. */
  datatype Block = Block(id: int, x: int, y: int, width: int, height: int,
                         image: string, link: string, owner: string,
                         backgroundColor: Option<string>)
  {
    /** The grid rectangle the block claims. */
    function Area(): Rect {
      Rect(x, y, width, height)
    }
  }

  /** The normalised selection rectangle: pixel projection plus grid cells. */
  datatype DerivedRect = DerivedRect(left: int, top: int, width: int, height: int,
                                     blockX: int, blockY: int,
                                     blockWidth: int, blockHeight: int)
  {
    /** The grid part, as used for a new block. */
    function Grid(): Rect {
      Rect(blockX, blockY, blockWidth, blockHeight)
    }
  }

  function Min(a: int, b: int): int { if a <= b then a else b }
  function Abs(a: int): int { if a < 0 then -a else a }

  /** The rectangle spanned by two touched cells given in gesture order.
      Its first and last column are exactly the two touched columns (and
      likewise for rows), so it is the smallest inclusive rectangle holding
      both corners and is at least one cell wide and high; the pixel part is
      the grid part scaled by CellSize. */
  function Derive(startX: int, startY: int, endX: int, endY: int): (r: DerivedRect)
    ensures r.blockWidth >= 1 && r.blockHeight >= 1
    ensures {r.blockX, r.blockX + r.blockWidth - 1} == {startX, endX}
    ensures {r.blockY, r.blockY + r.blockHeight - 1} == {startY, endY}
    ensures r.left == r.blockX * CellSize && r.top == r.blockY * CellSize
    ensures r.width == r.blockWidth * CellSize && r.height == r.blockHeight * CellSize
  {
    var x := Min(startX, endX);
    var y := Min(startY, endY);
    var width := Abs(endX - startX) + 1;
    var height := Abs(endY - startY) + 1;
    DerivedRect(x * CellSize, y * CellSize, width * CellSize, height * CellSize,
                x, y, width, height)
  }

  /** The derived rectangle does not depend on the direction of the drag:
      swapping the columns, the rows, or both corners yields the same one. */
  lemma DeriveIgnoresDragDirection(startX: int, startY: int, endX: int, endY: int)
    ensures Derive(endX, startY, startX, endY) == Derive(startX, startY, endX, endY)
    ensures Derive(startX, endY, endX, startY) == Derive(startX, startY, endX, endY)
    ensures Derive(endX, endY, startX, startY) == Derive(startX, startY, endX, endY)
  {
  }

  /** A single-cell drag yields a one-by-one rectangle at that cell. */
  lemma DeriveSingleCell(x: int, y: int)
    ensures Derive(x, y, x, y).Grid() == Rect(x, y, 1, 1)
    ensures Derive(x, y, x, y).width == CellSize && Derive(x, y, x, y).height == CellSize
  {
  }

  /** Open-interval overlap: the rectangles share interior, not only an
      edge or a corner, so rectangles that meet exactly on either axis (an
      edge or a corner) never overlap. */
  predicate Intersects(a: Rect, b: Rect)
    ensures (b.x == a.x + a.width || a.x == b.x + b.width ||
             b.y == a.y + a.height || a.y == b.y + b.height) ==> !Intersects(a, b)
  {
    a.x < b.x + b.width && a.x + a.width > b.x &&
    a.y < b.y + b.height && a.y + a.height > b.y
  }

  /** Cell (cx, cy) lies inside r. */
  predicate Covers(r: Rect, cx: int, cy: int) {
    r.x <= cx < r.x + r.width && r.y <= cy < r.y + r.height
  }

  lemma IntersectsSymmetric(a: Rect, b: Rect)
    ensures Intersects(a, b) <==> Intersects(b, a)
  {
  }

  /** For non-empty rectangles the overlap test means exactly that some
      grid cell belongs to both. */
  lemma IntersectsIffSharedCell(a: Rect, b: Rect)
    requires a.width >= 1 && a.height >= 1 && b.width >= 1 && b.height >= 1
    ensures Intersects(a, b) <==> exists cx, cy :: Covers(a, cx, cy) && Covers(b, cx, cy)
  {
    if Intersects(a, b) {
      var cx := if a.x <= b.x then b.x else a.x;
      var cy := if a.y <= b.y then b.y else a.y;
      assert Covers(a, cx, cy) && Covers(b, cx, cy);
    }
  }

  /** A non-empty rectangle overlaps itself. */
  lemma NonEmptyIntersectsItself(a: Rect)
    requires a.width >= 1 && a.height >= 1
    ensures Intersects(a, a)
  {
  }
}
