/** The texture atlas: an ordered table of rectangular UV regions of one texture,
    looked up by integer index. */
module TextureAtlas {

  import opened Options

  /** One UV rectangle of the atlas texture. */
  datatype ImageDescriptor = ImageDescriptor(left: real, top: real, right: real, bottom: real)

  /** True when a JavaScript number used as an array index selects one of the
      first `count` slots: a whole number in [0, count). */
  predicate IsSlot(index: real, count: nat) {
    index == index.Floor as real && 0 <= index.Floor < count
  }

  class Atlas {
    var imageCount: nat
    var imageDescriptors: seq<ImageDescriptor>

    /** The table is dense: `imageCount` is its length. */
    ghost predicate Valid()
      reads this
    {
      imageCount == |imageDescriptors|
    }

    /** A new atlas is empty, or holds the single full-texture frame (0, 1, 1, 0). */
    constructor (createFirstFullFrame: bool)
      ensures Valid()
      ensures createFirstFullFrame ==> imageDescriptors == [ImageDescriptor(0.0, 1.0, 1.0, 0.0)]
      ensures !createFirstFullFrame ==> imageDescriptors == []
    {
      imageCount := 0;
      imageDescriptors := [];
      new;
      if createFirstFullFrame {
        AddImageDescriptor(0.0, 1.0, 1.0, 0.0);
      }
    }

    /** Stores the descriptor at slot `imageCount` and counts it. */
    method AddImageDescriptor(left: real, top: real, right: real, bottom: real)
      requires Valid()
      modifies this
      ensures Valid()
      ensures imageCount == old(imageCount) + 1
      ensures imageDescriptors == old(imageDescriptors) + [ImageDescriptor(left, top, right, bottom)]
      ensures imageDescriptors[old(imageCount)] == ImageDescriptor(left, top, right, bottom)
    {
      imageDescriptors := imageDescriptors + [ImageDescriptor(left, top, right, bottom)];
      imageCount := imageCount + 1;
    }

    /** The descriptor at `index`, or None (JavaScript `undefined`) when the index
        is not a slot of the table. */
    function GetImageDescriptor(index: real): (r: Option<ImageDescriptor>)
      reads this
      requires Valid()
      ensures r.Some? <==> IsSlot(index, imageCount)
      ensures r.Some? ==> r.value == imageDescriptors[index.Floor]
      ensures r.Some? ==> r.value in imageDescriptors
    {
      if IsSlot(index, imageCount) then Some(imageDescriptors[index.Floor]) else None
    }

    /** Builds a grid atlas of `xCount` by `yCount` cells over the rectangle
        (left, top, right, bottom): rows outermost, each count walked upwards, or
        downwards from count - 1 when its reverse flag is set. */
    static method CreateGridAtlas(left: real, top: real, right: real, bottom: real,
                                  xCount: nat, yCount: nat, reverseX: bool, reverseY: bool)
      returns (atlas: Atlas)
      ensures fresh(atlas) && atlas.Valid()
      ensures atlas.imageDescriptors
           == Grid(left, bottom, BlockSize(right - left, xCount), BlockSize(top - bottom, yCount),
                   Order(xCount, reverseX), Order(yCount, reverseY))
    {
      atlas := new Atlas(false);

      var width := right - left;
      var height := top - bottom;

      var xBlockSize := BlockSize(width, xCount);
      var yBlockSize := BlockSize(height, yCount);

      var xInc, yInc := 1, 1;
      var xStart, yStart := 0, 0;
      var xFinish: int, yFinish: int := xCount, yCount;

      if reverseX {
        xInc := -1;
        xStart := xCount - 1;
        xFinish := -1;
      }
      if reverseY {
        yInc := -1;
        yStart := yCount - 1;
        yFinish := -1;
      }

      ghost var xs := Order(xCount, reverseX);
      ghost var ys := Order(yCount, reverseY);

      var y := yStart;
      while y != yFinish
        invariant -1 <= y <= yCount
        invariant reverseY ==> y < yCount && yInc == -1 && yFinish == -1
        invariant !reverseY ==> 0 <= y && yInc == 1 && yFinish == yCount
        invariant fresh(atlas) && atlas.Valid()
        invariant atlas.imageDescriptors
               == Grid(left, bottom, xBlockSize, yBlockSize, xs, ys[..Done(y, yCount, reverseY)])
        decreases if reverseY then y + 1 else yCount - y
      {
        ghost var row := Done(y, yCount, reverseY);
        assert ys[row] == y;
        AddGridRow(atlas, left, bottom, xBlockSize, yBlockSize, xCount, reverseX, xStart, xFinish, xInc, y);
        assert Order(xCount, reverseX) == xs;
        assert ys[..row + 1][..row] == ys[..row];
        y := y + yInc;
      }
      assert ys[..Done(y, yCount, reverseY)] == ys;
    }

    /** The inner loop of CreateGridAtlas: appends the cells of row `y`, the
        columns walked from xStart towards xFinish in steps of xInc. */
    static method AddGridRow(atlas: Atlas, left: real, bottom: real, xBlockSize: real, yBlockSize: real,
                             xCount: nat, reverseX: bool, xStart: int, xFinish: int, xInc: int, y: int)
      requires atlas.Valid()
      requires reverseX ==> xStart == xCount - 1 && xFinish == -1 && xInc == -1
      requires !reverseX ==> xStart == 0 && xFinish == xCount && xInc == 1
      modifies atlas
      ensures atlas.Valid()
      ensures atlas.imageDescriptors
           == old(atlas.imageDescriptors) + Row(left, bottom, xBlockSize, yBlockSize, Order(xCount, reverseX), y)
    {
      ghost var xs := Order(xCount, reverseX);
      var x := xStart;
      while x != xFinish
        invariant -1 <= x <= xCount
        invariant reverseX ==> x < xCount
        invariant !reverseX ==> 0 <= x
        invariant atlas.Valid()
        invariant atlas.imageDescriptors
               == old(atlas.imageDescriptors) + Row(left, bottom, xBlockSize, yBlockSize, xs[..Done(x, xCount, reverseX)], y)
        decreases if reverseX then x + 1 else xCount - x
      {
        ghost var col := Done(x, xCount, reverseX);
        assert xs[col] == x;
        var currentLeft := left + xBlockSize * x as real;
        var currentTop := bottom + yBlockSize * (y + 1) as real;
        var currentRight := currentLeft + xBlockSize;
        var currentBottom := currentTop - yBlockSize;
        assert ImageDescriptor(currentLeft, currentTop, currentRight, currentBottom)
            == Cell(left, bottom, xBlockSize, yBlockSize, x, y);

        atlas.AddImageDescriptor(currentLeft, currentTop, currentRight, currentBottom);
        assert xs[..col + 1] == xs[..col] + [x];
        RowSnoc(left, bottom, xBlockSize, yBlockSize, xs[..col], x, y);
        x := x + xInc;
      }
      assert xs[..Done(x, xCount, reverseX)] == xs;
    }
  }

  /** How many steps a loop variable walking from its start towards its finish
      has taken: forwards it counts 0, 1, ..., backwards count - 1, ..., 0. */
  function Done(v: int, count: nat, reverse: bool): int {
    if reverse then count - 1 - v else v
  }

  /** The cell extent along one axis, extent / count; a zero count yields no
      cells, so its (infinite, in JavaScript) block size is never used. */
  function BlockSize(extent: real, count: nat): real {
    if count == 0 then 0.0 else extent / count as real
  }

  /** The order in which the grid loops visit one axis. */
  function Order(count: nat, reverse: bool): (r: seq<int>)
    ensures |r| == count
    ensures forall i :: 0 <= i < count ==> r[i] == Done(i, count, reverse)
  {
    seq(count, i => Done(i, count, reverse))
  }

  /** The descriptor of grid cell (x, y): its left edge is x blocks right of the
      rectangle's left edge, its top edge y + 1 blocks above the bottom edge. */
  function Cell(left: real, bottom: real, xBlock: real, yBlock: real, x: int, y: int): ImageDescriptor {
    var cellLeft := left + xBlock * x as real;
    var cellTop := bottom + yBlock * (y + 1) as real;
    ImageDescriptor(cellLeft, cellTop, cellLeft + xBlock, cellTop - yBlock)
  }

  /** One row of cells, at height `y`, in the column order `xs`. */
  function Row(left: real, bottom: real, xBlock: real, yBlock: real, xs: seq<int>, y: int): seq<ImageDescriptor> {
    seq(|xs|, i requires 0 <= i < |xs| => Cell(left, bottom, xBlock, yBlock, xs[i], y))
  }

  /** The rows `ys`, each in the column order `xs`, one after the other. */
  function Grid(left: real, bottom: real, xBlock: real, yBlock: real, xs: seq<int>, ys: seq<int>): seq<ImageDescriptor>
    decreases |ys|
  {
    if ys == [] then []
    else Grid(left, bottom, xBlock, yBlock, xs, ys[..|ys| - 1])
         + Row(left, bottom, xBlock, yBlock, xs, ys[|ys| - 1])
  }

  lemma RowSnoc(left: real, bottom: real, xBlock: real, yBlock: real, xs: seq<int>, x: int, y: int)
    ensures Row(left, bottom, xBlock, yBlock, xs + [x], y)
         == Row(left, bottom, xBlock, yBlock, xs, y) + [Cell(left, bottom, xBlock, yBlock, x, y)]
  {
  }

  /** The grid holds |xs| * |ys| cells, and the one at position r * |xs| + c is the
      cell of column xs[c] in row ys[r]. */
  lemma {:induction false} GridAt(left: real, bottom: real, xBlock: real, yBlock: real,
                                  xs: seq<int>, ys: seq<int>, r: nat, c: nat)
    requires r < |ys| && c < |xs|
    ensures |Grid(left, bottom, xBlock, yBlock, xs, ys)| == |xs| * |ys|
    ensures r * |xs| + c < |xs| * |ys|
    ensures Grid(left, bottom, xBlock, yBlock, xs, ys)[r * |xs| + c]
         == Cell(left, bottom, xBlock, yBlock, xs[c], ys[r])
  {
    GridLength(left, bottom, xBlock, yBlock, xs, ys);
    var m, n := |xs|, |ys|;
    var front := ys[..n - 1];
    GridLength(left, bottom, xBlock, yBlock, xs, front);
    assert m * n == m * (n - 1) + m;
    if r < n - 1 {
      GridAt(left, bottom, xBlock, yBlock, xs, front, r, c);
    } else {
      assert r * m == m * (n - 1);
    }
  }

  lemma {:induction false} GridLength(left: real, bottom: real, xBlock: real, yBlock: real,
                                      xs: seq<int>, ys: seq<int>)
    ensures |Grid(left, bottom, xBlock, yBlock, xs, ys)| == |xs| * |ys|
    decreases |ys|
  {
    if ys != [] {
      GridLength(left, bottom, xBlock, yBlock, xs, ys[..|ys| - 1]);
      assert |xs| * |ys| == |xs| * (|ys| - 1) + |xs|;
    }
  }

  /** A created grid atlas holds exactly xCount * yCount descriptors, and the one
      stored (r * xCount + c)-th is the cell of the column and row that the loops
      visit at steps c and r: c and r themselves, or xCount - 1 - c and
      yCount - 1 - r when reversed. */
  lemma GridAtlasLayout(left: real, top: real, right: real, bottom: real,
                        xCount: nat, yCount: nat, reverseX: bool, reverseY: bool, r: nat, c: nat)
    requires r < yCount && c < xCount
    ensures var xb, yb := BlockSize(right - left, xCount), BlockSize(top - bottom, yCount);
            var g := Grid(left, bottom, xb, yb, Order(xCount, reverseX), Order(yCount, reverseY));
            && |g| == xCount * yCount
            && r * xCount + c < |g|
            && g[r * xCount + c] == Cell(left, bottom, xb, yb,
                                         if reverseX then xCount - 1 - c else c,
                                         if reverseY then yCount - 1 - r else r)
  {
    var xb, yb := BlockSize(right - left, xCount), BlockSize(top - bottom, yCount);
    var xs, ys := Order(xCount, reverseX), Order(yCount, reverseY);
    assert xs[c] == (if reverseX then xCount - 1 - c else c);
    assert ys[r] == (if reverseY then yCount - 1 - r else r);
    GridAt(left, bottom, xb, yb, xs, ys, r, c);
  }

  /** Grid cell (x, y) of the rectangle (left, top, right, bottom) split into
      xCount by yCount cells starts at left + (width / xCount) * x, has its top edge
      at bottom + (height / yCount) * (y + 1), and is width / xCount wide and
      height / yCount tall. Neighbouring cells share their edges, and the outer
      cells end on the rectangle's edges, so the cells tile the rectangle. */
  lemma CellGeometry(left: real, top: real, right: real, bottom: real,
                     xCount: nat, yCount: nat, x: int, y: int)
    requires 0 < xCount && 0 < yCount
    ensures var xb, yb := BlockSize(right - left, xCount), BlockSize(top - bottom, yCount);
            var d := Cell(left, bottom, xb, yb, x, y);
            && d.left == left + ((right - left) / xCount as real) * x as real
            && d.top == bottom + ((top - bottom) / yCount as real) * (y + 1) as real
            && d.right - d.left == (right - left) / xCount as real
            && d.top - d.bottom == (top - bottom) / yCount as real
            && d.right == Cell(left, bottom, xb, yb, x + 1, y).left
            && d.top == Cell(left, bottom, xb, yb, x, y + 1).bottom
            && Cell(left, bottom, xb, yb, 0, y).left == left
            && Cell(left, bottom, xb, yb, xCount - 1, y).right == right
            && Cell(left, bottom, xb, yb, x, 0).bottom == bottom
            && Cell(left, bottom, xb, yb, x, yCount - 1).top == top
  {
    var xb, yb := BlockSize(right - left, xCount), BlockSize(top - bottom, yCount);
    assert xb * xCount as real == right - left;
    assert yb * yCount as real == top - bottom;
    assert xb * (xCount - 1) as real + xb == xb * xCount as real;
    assert xb * x as real + xb == xb * (x + 1) as real;
    assert yb * (y + 1) as real - yb == yb * y as real;
    assert yb * (y + 1 + 1) as real - yb == yb * (y + 1) as real;
  }

}
