/** The flex-like layout engine of services/layoutEngine.ts.

    `Layout` is the specification: it says, in closed form, where every node
    of the tree ends up (children sized at the origin, then placed along the
    main axis at running sums of their extents, then offset on the cross
    axis).  `ComputeNodeLayout` and `UpdateAbsolutePosition` are the engine
    itself, written as the source writes them (a `for` loop that lays out and
    pushes the children, a second loop that walks the cursor, the subtree
    translation) and proved equal to the specification.

    Render nodes are values here.  The source copies the input node's
    properties into the render node by reference (`{...node}`), so a later
    in-place patch also changes the `props` seen through snapshots already
    published; a value snapshot keeps the properties it was laid out with. */
module LayoutEngine {
  import opened JsonValues

  /** The virtual resolution `calculateLayout` lays the root out in. */
  const CanvasWidth: real := 1000.0
  const CanvasHeight: real := 800.0

  datatype Box = Box(x: real, y: real, width: real, height: real)

  /** A render node: the input node's own properties (its spread, without the
      `children` and `layout` keys that the engine writes), its computed box,
      and its computed children with absolute coordinates. */
  datatype RNode = RNode(fields: map<string, Json>, layout: Box, children: seq<RNode>)

  // ---------------------------------------------------------------------
  // Reading the node record

  /** `node.props?.style || {}` */
  function StyleOf(node: Json): Json
  {
    var s := Get(Get(node, "props"), "style");
    if Truthy(s) then s else JObj(map[])
  }

  /** `v || 0` for the numeric style fields `padding` and `gap`. */
  function NumOr0(v: Json): real
  {
    if v.JNum? then v.n else 0.0
  }

  /** A node lays out in a row when its style says `flexDirection: 'row'`, or
      says no direction at all and the node is of type `Row`. */
  predicate IsRow(node: Json)
  {
    var fd := Get(StyleOf(node), "flexDirection");
    fd == JStr("row") || (!Truthy(fd) && Get(node, "type") == JStr("Row"))
  }

  /** The node takes the container branch exactly when it has a `children`
      array, even an empty one. */
  predicate HasChildArray(node: Json)
  {
    node.JObj? && "children" in node.fields && node.fields["children"].JArr?
  }

  function Kids(node: Json): seq<Json>
  {
    if HasChildArray(node) then node.fields["children"].items else []
  }

  /** The trees `computeNodeLayout` throws on.  It reads `props` of every node
      it visits, which throws on `null` and `undefined`, and it visits the
      root and, recursively, every element of a `children` array (holes a
      patch leaves in such an array read as `undefined`). */
  predicate Unlayable(node: Json)
    decreases node
  {
    node == JNull || node == JUndefined
    || (HasChildArray(node)
        && exists i :: 0 <= i < |node.fields["children"].items| && Unlayable(node.fields["children"].items[i]))
  }

  /** `{...node}` without the two keys the engine overwrites. */
  function Spread(node: Json): map<string, Json>
  {
    if node.JObj? then node.fields - {"children", "layout"} else map[]
  }

  /** The per-node quantities the engine resolves before it looks at the
      children: axis, padding, gap, the resolved width, and the height as it
      stands before auto-sizing (the numeric `style.height`, otherwise 0). */
  datatype Container = Container(
    isRow: bool, padding: real, gap: real, width: real,
    heightSet: bool, height: real, alignItems: Json, justifyContent: Json)

  function ContainerOf(node: Json, offered: real): Container
  {
    var style := StyleOf(node);
    var w := Get(style, "width");
    var h := Get(style, "height");
    Container(
      IsRow(node), NumOr0(Get(style, "padding")), NumOr0(Get(style, "gap")),
      if w.JNum? then w.n else offered,
      h.JNum?, if h.JNum? then h.n else 0.0,
      Get(style, "alignItems"), Get(style, "justifyContent"))
  }

  /** The width a container offers each of its `n` children: its content width
      in a column, an equal share of it after the gaps in a row. */
  function Offer(c: Container, n: nat): real
    requires n > 0
  {
    var inner := c.width - c.padding * 2.0;
    if c.isRow then (inner - c.gap * ((n - 1) as real)) / (n as real) else inner
  }

  lemma OfferUnfolded(c: Container, n: nat, inner: real)
    requires n > 0 && inner == c.width - c.padding * 2.0
    ensures Offer(c, n) == if c.isRow then (inner - c.gap * ((n - 1) as real)) / (n as real) else inner
  {
  }

  /** A child's own numeric width overrides the offer. */
  function ChildWidth(child: Json, c: Container, n: nat): real
    requires n > 0
  {
    var w := Get(StyleOf(child), "width");
    if w.JNum? then w.n else Offer(c, n)
  }

  // ---------------------------------------------------------------------
  // Translation of a laid-out subtree

  /** Every box of the subtree moved by (dx, dy). */
  function Shift(t: RNode, dx: real, dy: real): RNode
  {
    RNode(t.fields,
          Box(t.layout.x + dx, t.layout.y + dy, t.layout.width, t.layout.height),
          seq(|t.children|, i requires 0 <= i < |t.children| => Shift(t.children[i], dx, dy)))
  }

  /** The subtree moved so that its root sits at (x, y). */
  function MoveTo(t: RNode, x: real, y: real): RNode
  {
    Shift(t, x - t.layout.x, y - t.layout.y)
  }

  // ---------------------------------------------------------------------
  // Main-axis and cross-axis arithmetic

  function MainExtent(c: Container, r: RNode): real
  {
    if c.isRow then r.layout.width else r.layout.height
  }

  function CrossExtent(c: Container, r: RNode): real
  {
    if c.isRow then r.layout.height else r.layout.width
  }

  /** The sum of the first `i` main-axis extents. */
  function TotalMain(kids: seq<RNode>, c: Container, i: nat): real
    requires i <= |kids|
  {
    if i == 0 then 0.0 else TotalMain(kids, c, i - 1) + MainExtent(c, kids[i - 1])
  }

  /** How far the cursor has advanced after the first `i` children:
      each child's main extent plus the effective gap. */
  function Advance(kids: seq<RNode>, c: Container, step: real, i: nat): real
    requires i <= |kids|
  {
    if i == 0 then 0.0 else Advance(kids, c, step, i - 1) + (MainExtent(c, kids[i - 1]) + step)
  }

  function Max(a: real, b: real): real
  {
    if a >= b then a else b
  }

  /** `maxChildDim` after the first `i` children: the largest cross extent,
      starting from 0. */
  function MaxCross(kids: seq<RNode>, c: Container, i: nat): real
    requires i <= |kids|
  {
    if i == 0 then 0.0 else Max(MaxCross(kids, c, i - 1), CrossExtent(c, kids[i - 1]))
  }

  datatype Spacing = Spacing(startOffset: real, currentGap: real)

  /** `justifyContent`: the offset of the first child and the gap between
      children, for `n` children whose main extents add up to `total`. */
  function Justify(c: Container, total: real, n: nat): Spacing
  {
    var size := if c.isRow then c.width else c.height;
    if c.justifyContent == JStr("center") then
      Spacing(if size > 0.0 then (size - total - c.gap * ((n - 1) as real) - c.padding * 2.0) / 2.0 else 0.0, c.gap)
    else if c.justifyContent == JStr("space-between") && n > 1 then
      var available := size - total - c.padding * 2.0;
      Spacing(0.0, if available > 0.0 then available / ((n - 1) as real) else c.gap)
    else
      Spacing(0.0, c.gap)
  }

  /** `alignItems`: the child's offset on the cross axis.  The container's
      cross size is its width in a column and, in a row, its height as it
      stands before auto-sizing; padding is subtracted twice. */
  function CrossOffset(c: Container, r: RNode): real
  {
    var cross := if c.isRow then c.height else c.width;
    if c.alignItems == JStr("center") then
      (if cross > 0.0 then (cross - c.padding * 2.0 - CrossExtent(c, r)) / 2.0 else 0.0)
    else if c.alignItems == JStr("flex-end") then
      (if cross > 0.0 then cross - c.padding * 2.0 - CrossExtent(c, r) else 0.0)
    else 0.0
  }

  /** Child `i`, laid out at the origin, moved to its place in a container
      whose top-left corner is (x, y). */
  function Placed(kids: seq<RNode>, c: Container, x: real, y: real, sp: Spacing, i: nat): RNode
    requires i < |kids|
  {
    var main := c.padding + sp.startOffset + Advance(kids, c, sp.currentGap, i);
    var cross := c.padding + CrossOffset(c, kids[i]);
    if c.isRow then MoveTo(kids[i], x + main, y + cross)
    else MoveTo(kids[i], x + cross, y + main)
  }

  /** The height of a container whose style has no numeric height: the
      tallest child plus the padding on both sides in a row; in a column the
      distance the cursor travelled, which counts the top padding and a gap
      after the last child but not the bottom padding. */
  function AutoHeight(kids: seq<RNode>, c: Container, sp: Spacing): real
  {
    if c.isRow then MaxCross(kids, c, |kids|) + c.padding * 2.0
    else c.padding + sp.startOffset + Advance(kids, c, sp.currentGap, |kids|)
  }

  /** Where `Placed` puts child `i`, coordinate by coordinate. */
  lemma PlacedAt(kids: seq<RNode>, c: Container, x: real, y: real, sp: Spacing, i: nat, fx: real, fy: real)
    requires i < |kids|
    requires var main := c.padding + sp.startOffset + Advance(kids, c, sp.currentGap, i);
             var cross := c.padding + CrossOffset(c, kids[i]);
             if c.isRow then fx == x + main && fy == y + cross else fx == x + cross && fy == y + main
    ensures Placed(kids, c, x, y, sp, i) == MoveTo(kids[i], fx, fy)
  {
  }

  // ---------------------------------------------------------------------
  // The specification

  /** The children of a container, each laid out at the origin with the width
      the container offers it. */
  function Laid(items: seq<Json>, c: Container): (r: seq<RNode>)
    ensures |r| == |items|
    decreases items
  {
    seq(|items|, j requires 0 <= j < |items| => Layout(items[j], ChildWidth(items[j], c, |items|), 0.0, 0.0))
  }

  /** The render tree of `node`, offered width `offered`, with its top-left
      corner at (x, y).  (The source also passes an available height, which it
      never reads.) */
  function Layout(node: Json, offered: real, x: real, y: real): (r: RNode)
    ensures r.layout.x == x && r.layout.y == y
    ensures r.layout.width == ContainerOf(node, offered).width
    ensures r.fields == Spread(node)
    ensures |r.children| == |Kids(node)|
    decreases node
  {
    var c := ContainerOf(node, offered);
    if HasChildArray(node) then
      var kids := Laid(node.fields["children"].items, c);
      var n := |kids|;
      var sp := Justify(c, TotalMain(kids, c, n), n);
      RNode(Spread(node),
            Box(x, y, c.width, if c.heightSet then c.height else AutoHeight(kids, c, sp)),
            seq(n, i requires 0 <= i < n => Placed(kids, c, x, y, sp, i)))
    else
      RNode(Spread(node), Box(x, y, c.width, if c.height == 0.0 then 50.0 else c.height), [])
  }

  /** `Layout` of a container, unfolded once. */
  lemma ContainerLayout(node: Json, offered: real, x: real, y: real)
    requires HasChildArray(node)
    ensures var c := ContainerOf(node, offered);
            var kids := Laid(node.fields["children"].items, c);
            var n := |kids|;
            var sp := Justify(c, TotalMain(kids, c, n), n);
            Layout(node, offered, x, y)
            == RNode(Spread(node),
                     Box(x, y, c.width, if c.heightSet then c.height else AutoHeight(kids, c, sp)),
                     seq(n, i requires 0 <= i < n => Placed(kids, c, x, y, sp, i)))
  {
  }

  // ---------------------------------------------------------------------
  // The engine

  /** `updateAbsolutePosition`: move the node to (x, y) and every descendant
      by the same amount. */
  method UpdateAbsolutePosition(node: RNode, x: real, y: real) returns (r: RNode)
    ensures r == MoveTo(node, x, y)
    decreases node
  {
    var dx := x - node.layout.x;
    var dy := y - node.layout.y;
    var children := node.children;
    for i := 0 to |children|
      invariant |children| == |node.children|
      invariant forall j :: 0 <= j < i ==> children[j] == Shift(node.children[j], dx, dy)
      invariant forall j :: i <= j < |children| ==> children[j] == node.children[j]
    {
      var c := node.children[i];
      var moved := UpdateAbsolutePosition(c, c.layout.x + dx, c.layout.y + dy);
      children := children[i := moved];
    }
    r := RNode(node.fields, Box(x, y, node.layout.width, node.layout.height), children);
  }

  /** `computeNodeLayout`. */
  method ComputeNodeLayout(node: Json, availableWidth: real, availableHeight: real, absX: real, absY: real)
    returns (r: RNode)
    ensures r == Layout(node, availableWidth, absX, absY)
    decreases node, 1
  {
    var style := StyleOf(node);
    var padding := NumOr0(Get(style, "padding"));
    var gap := NumOr0(Get(style, "gap"));

    var isRow := Get(style, "flexDirection") == JStr("row");
    if !Truthy(Get(style, "flexDirection")) && Get(node, "type") == JStr("Row") {
      isRow := true;
    }

    var width := availableWidth;
    var height := 0.0;
    if Get(style, "width").JNum? {
      width := Get(style, "width").n;
    }
    if Get(style, "height").JNum? {
      height := Get(style, "height").n;
    }

    var computedChildren: seq<RNode> := [];
    var c := ContainerOf(node, availableWidth);
    assert c == Container(isRow, padding, gap, width, Get(style, "height").JNum?, height,
                          Get(style, "alignItems"), Get(style, "justifyContent"));

    if HasChildArray(node) {
      var items := node.fields["children"].items;
      var n := |items|;

      // Pass 1: size every child at the origin.
      computedChildren := SizeChildren(items, c);

      // Pass 2: place the children.
      var currentY, maxChildDim;
      computedChildren, currentY, maxChildDim := PositionChildren(computedChildren, c, absX, absY);
      if !Get(style, "height").JNum? {
        height := if isRow then maxChildDim + padding * 2.0 else currentY - absY;
      }
      r := RNode(Spread(node), Box(absX, absY, width, height), computedChildren);
      ContainerLayout(node, availableWidth, absX, absY);
    } else {
      if height == 0.0 {
        height := 50.0;
      }
      r := RNode(Spread(node), Box(absX, absY, width, height), computedChildren);
    }
  }

  /** The height the first pass estimates for a child before laying it out:
      its numeric height, 30 for a Text, 60 for a Button, and for a Row,
      Column or Card the height of a dry run.  The estimate only ever reaches
      the `availableHeight` parameter, which the engine never reads, so it has
      no effect on any result. */
  method ProvisionalHeight(child: Json, childW: real) returns (childH: real)
    decreases child, 2
  {
    var childStyle := StyleOf(child);
    childH := if Get(childStyle, "height").JNum? then Get(childStyle, "height").n else 0.0;
    var childType := Get(child, "type");
    if childType == JStr("Text") {
      childH := 30.0;
      // `Number(...)` of a truthy height; non-numeric heights keep 30 here.
      if Truthy(Get(childStyle, "height")) && Get(childStyle, "height").JNum? {
        childH := Get(childStyle, "height").n;
      }
    }
    if childType == JStr("Button") {
      childH := 60.0;
    }
    if childType == JStr("Row") || childType == JStr("Column") || childType == JStr("Card") {
      var tempLayout := ComputeNodeLayout(child, childW, 0.0, 0.0, 0.0);
      childH := tempLayout.layout.height;
    }
  }

  /** The first pass of `computeNodeLayout`: lay every child out at the
      origin with the width its container offers it, and collect the results
      in order. */
  method SizeChildren(items: seq<Json>, c: Container) returns (computedChildren: seq<RNode>)
    ensures computedChildren == Laid(items, c)
    decreases items
  {
    ghost var laid := Laid(items, c);
    computedChildren := [];
    for i := 0 to |items|
      invariant |computedChildren| == i
      invariant forall j :: 0 <= j < i ==> computedChildren[j] == laid[j]
    {
      var computedChild := SizeChild(items, i, c);
      computedChildren := computedChildren + [computedChild];
    }
  }

  /** One step of the first pass, for child `i`: the width offered to it,
      its provisional height, and its layout at the origin. */
  method SizeChild(items: seq<Json>, i: nat, c: Container) returns (computedChild: RNode)
    requires i < |items|
    ensures computedChild == Laid(items, c)[i]
    decreases items[i], 3
  {
    var n := |items|;
    var child := items[i];
    var childAvailableWidth := c.width - c.padding * 2.0;
    var childStyle := StyleOf(child);
    var childW := if c.isRow then (childAvailableWidth - c.gap * ((n - 1) as real)) / (n as real)
                  else childAvailableWidth;
    OfferUnfolded(c, n, childAvailableWidth);
    if Get(childStyle, "width").JNum? {
      childW := Get(childStyle, "width").n;
    }
    var childH := ProvisionalHeight(child, childW);
    computedChild := ComputeNodeLayout(child, childW, childH, 0.0, 0.0);
  }

  /** The `alignItems` step of the second pass: the child's offset on the
      cross axis, computed branch by branch. */
  method AlignOffset(c: Container, child: RNode) returns (crossAxisOffset: real)
    ensures crossAxisOffset == CrossOffset(c, child)
  {
    crossAxisOffset := 0.0;
    if c.alignItems == JStr("center") {
      if c.isRow {
        crossAxisOffset := if c.height > 0.0 then (c.height - c.padding * 2.0 - child.layout.height) / 2.0 else 0.0;
      } else {
        crossAxisOffset := if c.width > 0.0 then (c.width - c.padding * 2.0 - child.layout.width) / 2.0 else 0.0;
      }
    } else if c.alignItems == JStr("flex-end") {
      if c.isRow {
        crossAxisOffset := if c.height > 0.0 then c.height - c.padding * 2.0 - child.layout.height else 0.0;
      } else {
        crossAxisOffset := if c.width > 0.0 then c.width - c.padding * 2.0 - child.layout.width else 0.0;
      }
    }
  }

  /** The second pass of `computeNodeLayout`: distribute the children laid
      out at the origin along the main axis (`justifyContent`), offset each on
      the cross axis (`alignItems`) and move its subtree there.  Returns the
      placed children and the final cursor row and largest cross extent, from
      which the caller auto-sizes its height. */
  method PositionChildren(kids: seq<RNode>, c: Container, absX: real, absY: real)
    returns (placed: seq<RNode>, currentY: real, maxChildDim: real)
    ensures var sp := Justify(c, TotalMain(kids, c, |kids|), |kids|);
            && placed == seq(|kids|, i requires 0 <= i < |kids| => Placed(kids, c, absX, absY, sp, i))
            && maxChildDim == MaxCross(kids, c, |kids|)
            && currentY == absY + c.padding + (if c.isRow then 0.0 else sp.startOffset + Advance(kids, c, sp.currentGap, |kids|))
  {
    var n := |kids|;
    var isRow, padding, gap, width, height := c.isRow, c.padding, c.gap, c.width, c.height;
    var currentX := absX + padding;
    currentY := absY + padding;
    maxChildDim := 0.0;

    var totalContentSize := TotalMain(kids, c, n);
    var containerSize := if isRow then width else height;
    var currentGap := gap;
    var startOffset := 0.0;
    if c.justifyContent == JStr("center") {
      if containerSize > 0.0 {
        startOffset := (containerSize - totalContentSize - gap * ((n - 1) as real) - padding * 2.0) / 2.0;
      }
    } else if c.justifyContent == JStr("space-between") && n > 1 {
      var availableSpace := containerSize - totalContentSize - padding * 2.0;
      if availableSpace > 0.0 {
        currentGap := availableSpace / ((n - 1) as real);
      }
    }
    ghost var sp := Justify(c, totalContentSize, n);
    assert sp == Spacing(startOffset, currentGap);
    if isRow {
      currentX := currentX + startOffset;
    } else {
      currentY := currentY + startOffset;
    }

    placed := kids;
    for i := 0 to n
      invariant |placed| == n
      invariant forall j :: 0 <= j < i ==> placed[j] == Placed(kids, c, absX, absY, sp, j)
      invariant forall j :: i <= j < n ==> placed[j] == kids[j]
      invariant isRow ==> currentX == absX + padding + startOffset + Advance(kids, c, currentGap, i)
                          && currentY == absY + padding
      invariant !isRow ==> currentY == absY + padding + startOffset + Advance(kids, c, currentGap, i)
                           && currentX == absX + padding
      invariant maxChildDim == MaxCross(kids, c, i)
    {
      var child := placed[i];
      var crossAxisOffset := AlignOffset(c, child);
      var finalX := if isRow then currentX else currentX + crossAxisOffset;
      var finalY := if isRow then currentY + crossAxisOffset else currentY;
      assert child == kids[i];
      var moved := UpdateAbsolutePosition(child, finalX, finalY);
      PlacedAt(kids, c, absX, absY, sp, i, finalX, finalY);
      placed := placed[i := moved];
      if isRow {
        currentX := currentX + (child.layout.width + currentGap);
        maxChildDim := Max(maxChildDim, child.layout.height);
      } else {
        currentY := currentY + (child.layout.height + currentGap);
        maxChildDim := Max(maxChildDim, child.layout.width);
      }
    }
  }

  /** `calculateLayout`: the root, offered the canvas width, at the origin. */
  method CalculateLayout(root: Json) returns (r: RNode)
    ensures r == Layout(root, CanvasWidth, 0.0, 0.0)
  {
    r := ComputeNodeLayout(root, CanvasWidth, CanvasHeight, 0.0, 0.0);
  }
}
