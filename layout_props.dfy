/** What the layout engine promises, proved about `Layout` (and so, through
    the engine's contracts, about `ComputeNodeLayout` and `CalculateLayout`).

    The engine lays every child out at the origin and then moves it; the
    central fact here is that this is the same as laying the child out where
    it ends up (`LayoutTranslates`), so every child of a render tree is the
    child's own layout at its slot (`ChildInPlace`).  The remaining lemmas
    state the sizing and placement rules one by one. */
module LayoutProperties {
  import opened JsonValues
  import opened LayoutEngine

  // ---------------------------------------------------------------------
  // Translation

  lemma {:induction false} ShiftZero(t: RNode)
    ensures Shift(t, 0.0, 0.0) == t
    decreases t
  {
    forall i | 0 <= i < |t.children|
      ensures Shift(t.children[i], 0.0, 0.0) == t.children[i]
    {
      ShiftZero(t.children[i]);
    }
  }

  /** Two translations are one translation by the sum. */
  lemma {:induction false} ShiftShift(t: RNode, dx1: real, dy1: real, dx2: real, dy2: real)
    ensures Shift(Shift(t, dx1, dy1), dx2, dy2) == Shift(t, dx1 + dx2, dy1 + dy2)
    decreases t
  {
    var s := Shift(t, dx1, dy1);
    assert |s.children| == |t.children|;
    forall i | 0 <= i < |t.children|
      ensures Shift(s.children[i], dx2, dy2) == Shift(t.children[i], dx1 + dx2, dy1 + dy2)
    {
      ShiftShift(t.children[i], dx1, dy1, dx2, dy2);
    }
  }

  /** A subtree seen from its own top-left corner. */
  function Relative(t: RNode): RNode
  {
    Shift(t, -t.layout.x, -t.layout.y)
  }

  /** `updateAbsolutePosition` puts the node where it is asked to and keeps
      everything else: the properties, every size, and where each descendant
      sits relative to the node. */
  lemma MoveToKeepsShape(t: RNode, x: real, y: real)
    ensures MoveTo(t, x, y).layout == Box(x, y, t.layout.width, t.layout.height)
    ensures MoveTo(t, x, y).fields == t.fields
    ensures Relative(MoveTo(t, x, y)) == Relative(t)
  {
    ShiftShift(t, x - t.layout.x, y - t.layout.y, -x, -y);
    assert (x - t.layout.x) + -x == -t.layout.x;
    assert (y - t.layout.y) + -y == -t.layout.y;
  }

  /** Moving a subtree twice is moving it once, to the second place. */
  lemma MoveToMoveTo(t: RNode, x1: real, y1: real, x2: real, y2: real)
    ensures MoveTo(MoveTo(t, x1, y1), x2, y2) == MoveTo(t, x2, y2)
  {
    ShiftShift(t, x1 - t.layout.x, y1 - t.layout.y, x2 - x1, y2 - y1);
  }

  lemma MoveToShift(t: RNode, x: real, y: real, dx: real, dy: real)
    ensures Shift(MoveTo(t, x, y), dx, dy) == MoveTo(t, x + dx, y + dy)
  {
    ShiftShift(t, x - t.layout.x, y - t.layout.y, dx, dy);
  }

  /** A child placed in a translated container is the placed child
      translated. */
  lemma PlacedShift(kids: seq<RNode>, c: Container, x: real, y: real, sp: Spacing, i: nat, dx: real, dy: real)
    requires i < |kids|
    ensures Placed(kids, c, x + dx, y + dy, sp, i) == Shift(Placed(kids, c, x, y, sp, i), dx, dy)
  {
    var main := c.padding + sp.startOffset + Advance(kids, c, sp.currentGap, i);
    var cross := c.padding + CrossOffset(c, kids[i]);
    if c.isRow {
      MoveToShift(kids[i], x + main, y + cross, dx, dy);
    } else {
      MoveToShift(kids[i], x + cross, y + main, dx, dy);
    }
  }

  /** Laying a node out at (x + dx, y + dy) is laying it out at (x, y) and
      translating the result. */
  lemma LayoutTranslates(node: Json, offered: real, x: real, y: real, dx: real, dy: real)
    ensures Layout(node, offered, x + dx, y + dy) == Shift(Layout(node, offered, x, y), dx, dy)
  {
    if HasChildArray(node) {
      var c := ContainerOf(node, offered);
      var kids := Laid(node.fields["children"].items, c);
      var n := |kids|;
      var sp := Justify(c, TotalMain(kids, c, n), n);
      ContainerLayout(node, offered, x, y);
      ContainerLayout(node, offered, x + dx, y + dy);
      var a := Layout(node, offered, x + dx, y + dy);
      var b := Shift(Layout(node, offered, x, y), dx, dy);
      forall i | 0 <= i < n
        ensures a.children[i] == b.children[i]
      {
        PlacedShift(kids, c, x, y, sp, i, dx, dy);
      }
      assert a.children == b.children;
    }
  }

  /** Laying a node out in place is laying it out at the origin and moving
      it: the two passes of the engine compute the direct layout. */
  lemma LayoutAtIsMovedLayout(node: Json, offered: real, x: real, y: real)
    ensures Layout(node, offered, x, y) == MoveTo(Layout(node, offered, 0.0, 0.0), x, y)
  {
    LayoutTranslates(node, offered, 0.0, 0.0, x, y);
  }

  // ---------------------------------------------------------------------
  // The children of a container

  /** The container quantities of `node`, and its laid-out children at the
      origin, with their spacing. */
  function LaidKids(node: Json, offered: real): seq<RNode>
    requires HasChildArray(node)
  {
    Laid(node.fields["children"].items, ContainerOf(node, offered))
  }

  /** The laid-out children keep the sizes they had at the origin, so the
      sums the engine takes over them are the same. */
  lemma {:induction false} SameSizes(a: seq<RNode>, b: seq<RNode>, c: Container, step: real, i: nat)
    requires |a| == |b| && i <= |a|
    requires forall j :: 0 <= j < |a| ==>
               a[j].layout.width == b[j].layout.width && a[j].layout.height == b[j].layout.height
    ensures TotalMain(a, c, i) == TotalMain(b, c, i)
    ensures Advance(a, c, step, i) == Advance(b, c, step, i)
    ensures MaxCross(a, c, i) == MaxCross(b, c, i)
  {
    if i > 0 {
      SameSizes(a, b, c, step, i - 1);
    }
  }

  /** Child `i` of a render tree is the `i`-th child of the input laid out,
      with the width its container offers it, where it stands. */
  lemma ChildInPlace(node: Json, offered: real, x: real, y: real, i: nat)
    requires HasChildArray(node) && i < |Kids(node)|
    ensures var r := Layout(node, offered, x, y);
            var c := ContainerOf(node, offered);
            var items := Kids(node);
            r.children[i] == Layout(items[i], ChildWidth(items[i], c, |items|), r.children[i].layout.x, r.children[i].layout.y)
  {
    var r := Layout(node, offered, x, y);
    var c := ContainerOf(node, offered);
    var items := Kids(node);
    var kids := LaidKids(node, offered);
    var n := |kids|;
    var sp := Justify(c, TotalMain(kids, c, n), n);
    var w := ChildWidth(items[i], c, |items|);
    ContainerLayout(node, offered, x, y);
    var p := Placed(kids, c, x, y, sp, i);
    assert r.children[i] == p;
    PlacedAtCorner(kids, c, x, y, sp, i);
    assert kids[i] == Layout(items[i], w, 0.0, 0.0);
    LayoutAtIsMovedLayout(items[i], w, p.layout.x, p.layout.y);
  }

  /** A placed child is the child moved to its own corner. */
  lemma PlacedAtCorner(kids: seq<RNode>, c: Container, x: real, y: real, sp: Spacing, i: nat)
    requires i < |kids|
    ensures var p := Placed(kids, c, x, y, sp, i);
            p == MoveTo(kids[i], p.layout.x, p.layout.y)
  {
  }

  /** A container's render tree in terms of its children laid out at the
      origin: the same number, each placed by `Placed` with the spacing
      computed from the render tree's own children (whose sizes are those at
      the origin). */
  lemma ContainerFacts(node: Json, offered: real, x: real, y: real)
    requires HasChildArray(node)
    ensures var r := Layout(node, offered, x, y);
            var c := ContainerOf(node, offered);
            var kids := LaidKids(node, offered);
            var sp := SpacingOf(r, c);
            |r.children| == |kids| == |Kids(node)|
            && sp == Justify(c, TotalMain(kids, c, |kids|), |kids|)
            && (forall j :: 0 <= j < |kids| ==> r.children[j] == Placed(kids, c, x, y, sp, j))
            && r.layout.height == if c.heightSet then c.height else AutoHeight(kids, c, sp)
  {
    var r := Layout(node, offered, x, y);
    var c := ContainerOf(node, offered);
    var kids := LaidKids(node, offered);
    ContainerLayout(node, offered, x, y);
    SameSizes(r.children, kids, c, 0.0, |kids|);
  }

  /** The spacing the engine uses for a container, computed from its render
      tree. */
  function SpacingOf(r: RNode, c: Container): Spacing
  {
    Justify(c, TotalMain(r.children, c, |r.children|), |r.children|)
  }

  /** Placement along the main axis, at the level of the placed children. */
  lemma PlacedMain(kids: seq<RNode>, c: Container, x: real, y: real, sp: Spacing, i: nat)
    requires i < |kids|
    ensures var p := Placed(kids, c, x, y, sp, i);
            (if c.isRow then p.layout.x == x + c.padding + sp.startOffset + Advance(kids, c, sp.currentGap, i)
             else p.layout.y == y + c.padding + sp.startOffset + Advance(kids, c, sp.currentGap, i))
            && p.layout.width == kids[i].layout.width && p.layout.height == kids[i].layout.height
  {
  }

  /** Placement on the cross axis, at the level of the placed children. */
  lemma PlacedCross(kids: seq<RNode>, c: Container, x: real, y: real, sp: Spacing, i: nat)
    requires i < |kids|
    ensures var p := Placed(kids, c, x, y, sp, i);
            if c.isRow then p.layout.y == y + c.padding + CrossOffset(c, kids[i])
            else p.layout.x == x + c.padding + CrossOffset(c, kids[i])
  {
  }

  /** Child widths: a child's own numeric width wins; otherwise it gets the
      container's offer (`OfferRule`). */
  lemma ChildWidths(node: Json, offered: real, x: real, y: real, i: nat)
    requires HasChildArray(node) && i < |Kids(node)|
    ensures var r := Layout(node, offered, x, y);
            var w := Get(StyleOf(Kids(node)[i]), "width");
            r.children[i].layout.width
            == if w.JNum? then w.n else Offer(ContainerOf(node, offered), |Kids(node)|)
  {
    var r := Layout(node, offered, x, y);
    var c := ContainerOf(node, offered);
    var kids := LaidKids(node, offered);
    var sp := SpacingOf(r, c);
    ContainerFacts(node, offered, x, y);
    PlacedMain(kids, c, x, y, sp, i);
    LaidWidth(Kids(node), c, i);
  }

  /** The offer: a column offers its content width (its width less the
      padding on both sides), a row an equal share of it after the gaps
      between its `n` children. */
  lemma OfferRule(c: Container, n: nat)
    requires n > 0
    ensures !c.isRow ==> Offer(c, n) == c.width - 2.0 * c.padding
    ensures c.isRow ==> Offer(c, n) * (n as real) + c.gap * ((n - 1) as real) == c.width - 2.0 * c.padding
  {
  }

  /** A child laid out at the origin is as wide as its container offers. */
  lemma LaidWidth(items: seq<Json>, c: Container, i: nat)
    requires i < |items|
    ensures Laid(items, c)[i].layout.width == ChildWidth(items[i], c, |items|)
  {
    var w := ChildWidth(items[i], c, |items|);
    assert Laid(items, c)[i] == Layout(items[i], w, 0.0, 0.0);
  }

  /** Main axis: the first child starts after the padding and the justify
      offset, and each next child starts where the previous one ends plus the
      effective gap. */
  lemma MainAxisPlacement(node: Json, offered: real, x: real, y: real, i: nat)
    requires HasChildArray(node) && i < |Kids(node)|
    ensures var r := Layout(node, offered, x, y);
            var c := ContainerOf(node, offered);
            var sp := SpacingOf(r, c);
            var k := r.children;
            (i == 0 ==>
               if c.isRow then k[0].layout.x == x + c.padding + sp.startOffset
               else k[0].layout.y == y + c.padding + sp.startOffset)
            && (i + 1 < |k| ==>
                  if c.isRow then k[i + 1].layout.x == k[i].layout.x + k[i].layout.width + sp.currentGap
                  else k[i + 1].layout.y == k[i].layout.y + k[i].layout.height + sp.currentGap)
  {
    var r := Layout(node, offered, x, y);
    var c := ContainerOf(node, offered);
    var kids := LaidKids(node, offered);
    var sp := SpacingOf(r, c);
    ContainerFacts(node, offered, x, y);
    PlacedMain(kids, c, x, y, sp, i);
    if i + 1 < |kids| {
      PlacedMain(kids, c, x, y, sp, i + 1);
    }
  }

  /** Cross axis: each child sits after the padding, offset by `alignItems`
      against the container's cross size (its width in a column; in a row its
      numeric style height, 0 when it has none). */
  lemma CrossAxisPlacement(node: Json, offered: real, x: real, y: real, i: nat)
    requires HasChildArray(node) && i < |Kids(node)|
    ensures var r := Layout(node, offered, x, y);
            var c := ContainerOf(node, offered);
            var k := r.children[i];
            var cross := if c.isRow then c.height else c.width;
            var own := if c.isRow then k.layout.height else k.layout.width;
            var offset := if c.alignItems == JStr("center") && cross > 0.0 then (cross - 2.0 * c.padding - own) / 2.0
                          else if c.alignItems == JStr("flex-end") && cross > 0.0 then cross - 2.0 * c.padding - own
                          else 0.0;
            if c.isRow then k.layout.y == y + c.padding + offset
            else k.layout.x == x + c.padding + offset
  {
    var r := Layout(node, offered, x, y);
    var c := ContainerOf(node, offered);
    var kids := LaidKids(node, offered);
    var sp := SpacingOf(r, c);
    ContainerFacts(node, offered, x, y);
    PlacedMain(kids, c, x, y, sp, i);
    PlacedCross(kids, c, x, y, sp, i);
  }

  // ---------------------------------------------------------------------
  // Heights

  /** A leaf (no `children` array) has no children and is as tall as its
      numeric style height, or 50 when that is missing or 0. */
  lemma LeafHeight(node: Json, offered: real, x: real, y: real)
    requires !HasChildArray(node)
    ensures var r := Layout(node, offered, x, y);
            var h := Get(StyleOf(node), "height");
            r.children == []
            && r.layout.height == if h.JNum? && h.n != 0.0 then h.n else 50.0
  {
  }

  /** A container with a numeric style height keeps it, whatever its
      children. */
  lemma ExplicitHeightWins(node: Json, offered: real, x: real, y: real)
    requires HasChildArray(node) && Get(StyleOf(node), "height").JNum?
    ensures Layout(node, offered, x, y).layout.height == Get(StyleOf(node), "height").n
  {
    ContainerLayout(node, offered, x, y);
  }

  /** `maxChildDim` is the largest cross extent, and 0 when every extent is
      negative or there is none. */
  lemma {:induction false} MaxCrossBounds(kids: seq<RNode>, c: Container, i: nat)
    requires i <= |kids|
    ensures MaxCross(kids, c, i) >= 0.0
    ensures forall j :: 0 <= j < i ==> CrossExtent(c, kids[j]) <= MaxCross(kids, c, i)
    ensures MaxCross(kids, c, i) == 0.0 || exists j :: 0 <= j < i && CrossExtent(c, kids[j]) == MaxCross(kids, c, i)
  {
    if i > 0 {
      MaxCrossBounds(kids, c, i - 1);
    }
  }

  /** A row without a numeric height is as tall as its tallest child plus
      the padding on both sides (and never less than the padding alone). */
  lemma RowAutoHeight(node: Json, offered: real, x: real, y: real)
    requires HasChildArray(node) && !Get(StyleOf(node), "height").JNum? && IsRow(node)
    ensures var r := Layout(node, offered, x, y);
            var p := ContainerOf(node, offered).padding;
            var h := r.layout.height;
            h >= 2.0 * p
            && (forall j :: 0 <= j < |r.children| ==> r.children[j].layout.height + 2.0 * p <= h)
            && (h == 2.0 * p || exists j :: 0 <= j < |r.children| && r.children[j].layout.height + 2.0 * p == h)
  {
    var r := Layout(node, offered, x, y);
    var c := ContainerOf(node, offered);
    var kids := LaidKids(node, offered);
    ContainerFacts(node, offered, x, y);
    SameSizes(r.children, kids, c, 0.0, |kids|);
    MaxCrossBounds(r.children, c, |kids|);
  }

  /** A column without a numeric height is as tall as the distance from its
      top to the end of its last child plus one more gap: the top padding is
      counted, the bottom padding is not.  An empty one is as tall as its
      padding. */
  lemma ColumnAutoHeight(node: Json, offered: real, x: real, y: real)
    requires HasChildArray(node) && !Get(StyleOf(node), "height").JNum? && !IsRow(node)
    ensures var r := Layout(node, offered, x, y);
            var c := ContainerOf(node, offered);
            var k := r.children;
            var n := |k|;
            if n == 0 then r.layout.height == c.padding
            else r.layout.height == k[n - 1].layout.y + k[n - 1].layout.height + SpacingOf(r, c).currentGap - y
  {
    var r := Layout(node, offered, x, y);
    var c := ContainerOf(node, offered);
    var kids := LaidKids(node, offered);
    var n := |kids|;
    var sp := SpacingOf(r, c);
    ContainerFacts(node, offered, x, y);
    if n > 0 {
      PlacedMain(kids, c, x, y, sp, n - 1);
    }
  }

  /** The root is laid out at the origin of the canvas, as wide as its
      numeric style width or the canvas. */
  lemma RootBox(root: Json)
    ensures var r := Layout(root, CanvasWidth, 0.0, 0.0);
            var w := Get(StyleOf(root), "width");
            r.layout.x == 0.0 && r.layout.y == 0.0
            && r.layout.width == if w.JNum? then w.n else 1000.0
  {
  }
}
