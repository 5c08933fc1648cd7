/** Where components/A2UINode.tsx draws each node of a laid-out tree.

    The layout engine works top-left based, y growing downwards; the 3D scene
    is centre based, y growing upwards.  `GetPosition` converts a layout box to
    the scene position of its centre.  A `Surface` draws only its children,
    each in absolute coordinates; a card, button, column or row draws itself
    and places its children in its own frame (shifted to its top-left corner,
    then by each child's offset from it) in local coordinates; a text node
    draws itself six units in front.

    `Render` flattens the drawn groups into a list of positions.  The
    per-frame easing of z (elevation and hover), mouse events and materials
    are not part of this model. */
module Scene {
  import opened JsonValues
  import opened LayoutEngine

  datatype Vec3 = Vec3(x: real, y: real, z: real)

  function Add(a: Vec3, b: Vec3): Vec3
  {
    Vec3(a.x + b.x, a.y + b.y, a.z + b.z)
  }

  /** `getPosition`: the centre of the box, measured from the centre of the
      canvas, with y pointing up. */
  function GetPosition(b: Box, canvasW: real, canvasH: real): Vec3
  {
    Vec3(b.x + b.width / 2.0 - canvasW / 2.0, canvasH / 2.0 - (b.y + b.height / 2.0), 0.0)
  }

  /** The top-left corner of a box of the given size centred at `p`. */
  function Corner(p: Vec3, width: real, height: real, canvasW: real, canvasH: real): (real, real)
  {
    (p.x - width / 2.0 + canvasW / 2.0, canvasH / 2.0 - p.y - height / 2.0)
  }

  /** The scene position determines the box: converting back gives the
      layout corner, and the position lies in the plane z = 0. */
  lemma CornerOfPosition(b: Box, canvasW: real, canvasH: real)
    ensures GetPosition(b, canvasW, canvasH).z == 0.0
    ensures Corner(GetPosition(b, canvasW, canvasH), b.width, b.height, canvasW, canvasH) == (b.x, b.y)
  {
  }

  /** A box that fills the canvas from its corner is drawn at the origin. */
  lemma FullCanvasAtOrigin(canvasW: real, canvasH: real)
    ensures GetPosition(Box(0.0, 0.0, canvasW, canvasH), canvasW, canvasH) == Vec3(0.0, 0.0, 0.0)
  {
  }

  /** Moving a box right moves it right on screen; moving it down the page
      moves it down on screen (y decreases). */
  lemma ScreenAxes(b: Box, dx: real, dy: real, canvasW: real, canvasH: real)
    ensures GetPosition(Box(b.x + dx, b.y + dy, b.width, b.height), canvasW, canvasH)
            == Add(GetPosition(b, canvasW, canvasH), Vec3(dx, -dy, 0.0))
  {
  }

  // ---------------------------------------------------------------------
  // Reading the render node

  datatype Space = Absolute | Local

  predicate IsType(n: RNode, t: string)
  {
    "type" in n.fields && n.fields["type"] == JStr(t)
  }

  function Props(n: RNode): Json
  {
    if "props" in n.fields then n.fields["props"] else JUndefined
  }

  /** `props?.style?.<key>` */
  function StyleField(n: RNode, key: string): Json
  {
    Get(Get(Props(n), "style"), key)
  }

  /** The component types drawn as a box with their children inside. */
  predicate IsBoxed(n: RNode)
  {
    IsType(n, "Card") || IsType(n, "Button") || IsType(n, "Column") || IsType(n, "Row")
  }

  /** A column or row without a background draws nothing of its own. */
  predicate IsContainerOnly(n: RNode)
  {
    (IsType(n, "Column") || IsType(n, "Row")) && !Truthy(StyleField(n, "backgroundColor"))
  }

  /** How far in front of the box its children's layer sits. */
  function ChildLayerZ(n: RNode): real
  {
    if IsContainerOnly(n) then 0.0 else 10.0
  }

  /** The fill colour: the background colour, `'#111'` when there is none,
      and pure black lifted to `'#111111'`. */
  function FillColor(n: RNode): (r: Json)
    ensures Truthy(r) && r != JStr("#000000")
    ensures var bg := StyleField(n, "backgroundColor");
            Truthy(bg) && bg != JStr("#000000") ==> r == bg
    ensures !Truthy(StyleField(n, "backgroundColor")) ==> r == JStr("#111")
    ensures StyleField(n, "backgroundColor") == JStr("#000000") ==> r == JStr("#111111")
  {
    var raw := if Truthy(StyleField(n, "backgroundColor")) then StyleField(n, "backgroundColor") else JStr("#111");
    if raw == JStr("#000000") then JStr("#111111") else raw
  }

  /** `props?.style?.borderRadius || 0`: a radius that is given and truthy,
      otherwise 0. */
  function BorderRadius(n: RNode): (r: Json)
    ensures Truthy(r) || r == JNum(0.0)
    ensures Truthy(StyleField(n, "borderRadius")) ==> r == StyleField(n, "borderRadius")
    ensures !Truthy(StyleField(n, "borderRadius")) ==> r == JNum(0.0)
  {
    var given := StyleField(n, "borderRadius");
    if Truthy(given) then given else JNum(0.0)
  }

  // ---------------------------------------------------------------------
  // Placement

  /** `coordinateSpace === 'absolute' ? getPosition(...) : [0, 0, 0]` */
  function Position(space: Space, b: Box, canvasW: real, canvasH: real): Vec3
  {
    match space
    case Absolute => GetPosition(b, canvasW, canvasH)
    case Local => Vec3(0.0, 0.0, 0.0)
  }

  /** Where a boxed parent drawn at `origin` puts the frame of its child: its
      children group sits at the parent's top-left corner on the child layer,
      and each child's group at the child's centre relative to that corner. */
  function ChildBase(p: RNode, c: RNode, origin: Vec3): Vec3
  {
    var relX := c.layout.x - p.layout.x;
    var relY := c.layout.y - p.layout.y;
    Add(Add(origin, Vec3(-p.layout.width / 2.0, p.layout.height / 2.0, ChildLayerZ(p))),
        Vec3(relX + c.layout.width / 2.0, -(relY + c.layout.height / 2.0), 0.0))
  }

  /** Nested placement agrees with absolute placement: a parent drawn where
      `getPosition` puts it places each child where `getPosition` would put
      the child, on the parent's child layer. */
  lemma NestedAgreement(p: RNode, c: RNode, origin: Vec3, canvasW: real, canvasH: real)
    requires origin.x == GetPosition(p.layout, canvasW, canvasH).x
    requires origin.y == GetPosition(p.layout, canvasW, canvasH).y
    ensures ChildBase(p, c, origin).x == GetPosition(c.layout, canvasW, canvasH).x
    ensures ChildBase(p, c, origin).y == GetPosition(c.layout, canvasW, canvasH).y
    ensures ChildBase(p, c, origin).z == origin.z + (if IsContainerOnly(p) then 0.0 else 10.0)
  {
  }

  /** A drawn group: the component type, its layout box, and the scene
      position of its group. */
  datatype Drawn = Drawn(kind: string, box: Box, at: Vec3)

  /** What a node draws when its parent's frame is at `base`, in the given
      coordinate space. */
  function Draw(n: RNode, base: Vec3, space: Space, canvasW: real, canvasH: real): seq<Drawn>
    decreases n, 1, 0
  {
    if IsType(n, "Surface") then
      DrawChildren(n, 0, base, true, canvasW, canvasH)
    else if IsBoxed(n) then
      var origin := Add(base, Position(space, n.layout, canvasW, canvasH));
      [Drawn(n.fields["type"].s, n.layout, origin)] + DrawChildren(n, 0, origin, false, canvasW, canvasH)
    else if IsType(n, "Text") then
      var origin := Add(base, Position(space, n.layout, canvasW, canvasH));
      [Drawn("Text", n.layout, Add(origin, Vec3(0.0, 0.0, 6.0)))]
    else []
  }

  /** The children of `p` from index `i` on: under a surface each is drawn
      in absolute space from the surface's frame, under a boxed node each in
      local space from its place in the parent's frame. */
  function DrawChildren(p: RNode, i: nat, origin: Vec3, underSurface: bool, canvasW: real, canvasH: real): seq<Drawn>
    decreases p, 0, |p.children| - i
  {
    if i >= |p.children| then []
    else
      var c := p.children[i];
      (if underSurface then Draw(c, origin, Absolute, canvasW, canvasH)
       else Draw(c, ChildBase(p, c, origin), Local, canvasW, canvasH))
      + DrawChildren(p, i + 1, origin, underSurface, canvasW, canvasH)
  }

  /** `FlatTreeRenderer`: the root, in absolute space, on a canvas the size
      of the root's box. */
  function Render(root: RNode): seq<Drawn>
  {
    Draw(root, Vec3(0.0, 0.0, 0.0), Absolute, root.layout.width, root.layout.height)
  }

  /** A surface is only ever drawn at the top or under another surface: no
      box holds a surface. */
  predicate WellNested(n: RNode)
    decreases n
  {
    (IsBoxed(n) ==> forall i :: 0 <= i < |n.children| ==> !IsType(n.children[i], "Surface"))
    && forall i :: 0 <= i < |n.children| ==> WellNested(n.children[i])
  }

  predicate OnScreen(d: Drawn, canvasW: real, canvasH: real)
  {
    d.at.x == GetPosition(d.box, canvasW, canvasH).x && d.at.y == GetPosition(d.box, canvasW, canvasH).y
  }

  predicate AllOnScreen(s: seq<Drawn>, canvasW: real, canvasH: real)
  {
    forall k :: 0 <= k < |s| ==> OnScreen(s[k], canvasW, canvasH)
  }

  /** The frame a node is drawn from is right for its coordinate space:
      absolute nodes from the canvas centre, local nodes from their own
      centre; surfaces are absolute. */
  predicate Anchored(n: RNode, base: Vec3, space: Space, canvasW: real, canvasH: real)
  {
    match space
    case Absolute => base.x == 0.0 && base.y == 0.0
    case Local =>
      !IsType(n, "Surface")
      && base.x == GetPosition(n.layout, canvasW, canvasH).x
      && base.y == GetPosition(n.layout, canvasW, canvasH).y
  }

  lemma {:induction false} DrawOnScreen(n: RNode, base: Vec3, space: Space, canvasW: real, canvasH: real)
    requires WellNested(n) && Anchored(n, base, space, canvasW, canvasH)
    ensures AllOnScreen(Draw(n, base, space, canvasW, canvasH), canvasW, canvasH)
    decreases n, 1, 0
  {
    if IsType(n, "Surface") {
      DrawChildrenOnScreen(n, 0, base, true, canvasW, canvasH);
    } else if IsBoxed(n) {
      var origin := Add(base, Position(space, n.layout, canvasW, canvasH));
      DrawChildrenOnScreen(n, 0, origin, false, canvasW, canvasH);
    }
  }

  lemma {:induction false} DrawChildrenOnScreen(p: RNode, i: nat, origin: Vec3, underSurface: bool,
                                                canvasW: real, canvasH: real)
    requires WellNested(p)
    requires underSurface ==> origin.x == 0.0 && origin.y == 0.0
    requires !underSurface ==> IsBoxed(p)
                               && origin.x == GetPosition(p.layout, canvasW, canvasH).x
                               && origin.y == GetPosition(p.layout, canvasW, canvasH).y
    ensures AllOnScreen(DrawChildren(p, i, origin, underSurface, canvasW, canvasH), canvasW, canvasH)
    decreases p, 0, |p.children| - i
  {
    if i < |p.children| {
      var c := p.children[i];
      var here := if underSurface then Draw(c, origin, Absolute, canvasW, canvasH)
                  else Draw(c, ChildBase(p, c, origin), Local, canvasW, canvasH);
      if underSurface {
        DrawOnScreen(c, origin, Absolute, canvasW, canvasH);
      } else {
        NestedAgreement(p, c, origin, canvasW, canvasH);
        DrawOnScreen(c, ChildBase(p, c, origin), Local, canvasW, canvasH);
      }
      var rest := DrawChildren(p, i + 1, origin, underSurface, canvasW, canvasH);
      DrawChildrenOnScreen(p, i + 1, origin, underSurface, canvasW, canvasH);
      assert DrawChildren(p, i, origin, underSurface, canvasW, canvasH) == here + rest;
    }
  }

  /** Every group the renderer draws, however deeply nested, sits exactly
      where `getPosition` puts its layout box on the root's canvas: the
      nested frames add up to the absolute placement. */
  lemma RenderOnScreen(root: RNode)
    requires WellNested(root)
    ensures AllOnScreen(Render(root), root.layout.width, root.layout.height)
  {
    DrawOnScreen(root, Vec3(0.0, 0.0, 0.0), Absolute, root.layout.width, root.layout.height);
  }

  /** The laid-out root fills its own canvas, so it is drawn at the centre of
      the scene. */
  lemma RootAtCentre(root: Json)
    ensures var r := Layout(root, CanvasWidth, 0.0, 0.0);
            GetPosition(r.layout, r.layout.width, r.layout.height) == Vec3(0.0, 0.0, 0.0)
  {
    var r := Layout(root, CanvasWidth, 0.0, 0.0);
    assert r.layout.x == 0.0 && r.layout.y == 0.0;
    FullCanvasAtOrigin(r.layout.width, r.layout.height);
  }
}
