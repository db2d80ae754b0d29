/** The workspace: a pannable, zoomable surface. Its viewport is a scale and
    a translation applied to the content layer as "translate, then scale";
    pointer positions are converted to content coordinates through it, shapes
    dropped on it are placed at the converted position, and every change of
    the viewport is pushed to the two rulers. */
module Workspace {
  import opened Snapshot
  import Rulers

  /** A shape placed on the workspace: its point list, its colour attribute,
      its CSS position in content coordinates (`None` when no position is
      set) and the side of its box, fixed when it was placed. */
  datatype Shape = Shape(
    points: string,
    color: Option<string>,
    left: Option<real>,
    top: Option<real>,
    size: real)

  /** The parsed drag payload: `{points, color}`. */
  datatype DropPayload = DropPayload(points: string, color: Option<string>)

  /** The viewport as written to the content layer's transform. */
  datatype View = View(scale: real, translateX: real, translateY: real)

  /** The dashed square that follows a drag over the workspace. */
  datatype Indicator = Indicator(visible: bool, left: real, top: real, size: real)

  // ---------------------------------------------------------------------
  // Coordinates

  /** Content coordinate of a pointer at `client`, on one axis, for a
      container starting at `origin`. */
  function ScreenToContent(client: real, origin: real, translate: real, scale: real): (x: real)
    requires scale != 0.0
    ensures client == origin + translate ==> x == 0.0
  {
    (client - origin - translate) / scale
  }

  /** Where content coordinate `x` is drawn under "translate, then scale". */
  function ContentToScreen(x: real, origin: real, translate: real, scale: real): (c: real)
    ensures x == 0.0 ==> c == origin + translate
  {
    origin + translate + scale * x
  }

  /** The two conversions are inverse to each other for any non-zero scale. */
  lemma ScreenContentInverse(client: real, x: real, origin: real, translate: real, scale: real)
    requires scale != 0.0
    ensures ContentToScreen(ScreenToContent(client, origin, translate, scale), origin, translate, scale) == client
    ensures ScreenToContent(ContentToScreen(x, origin, translate, scale), origin, translate, scale) == x
  {
    var d := client - origin - translate;
    assert scale * (d / scale) == d;
    assert (scale * x) / scale == x;
  }

  // ---------------------------------------------------------------------
  // Wheel zoom

  function Min(a: real, b: real): (m: real)
    ensures m <= a && m <= b && (m == a || m == b)
  {
    if a <= b then a else b
  }

  function Max(a: real, b: real): (m: real)
    ensures a <= m && b <= m && (m == a || m == b)
  {
    if a >= b then a else b
  }

  /** A wheel step: scrolling down (`deltaY > 0`) zooms out, anything else,
      `deltaY == 0` included, zooms in. */
  function WheelDelta(deltaY: real): (d: real)
    ensures d == -0.1 <==> deltaY > 0.0
    ensures d == 0.1 <==> deltaY <= 0.0
  {
    if deltaY > 0.0 then -0.1 else 0.1
  }

  /** The scale after one wheel event: one step, clamped to [0.1, 3]. */
  function ZoomedScale(scale: real, deltaY: real): (s: real)
    ensures 0.1 <= s <= 3.0
    ensures 0.1 <= scale + WheelDelta(deltaY) <= 3.0 ==> s == scale + WheelDelta(deltaY)
    ensures scale + WheelDelta(deltaY) < 0.1 ==> s == 0.1
    ensures scale + WheelDelta(deltaY) > 3.0 ==> s == 3.0
  {
    Min(Max(0.1, scale + WheelDelta(deltaY)), 3.0)
  }

  /** The translation after rescaling from `oldScale` to `newScale` with the
      pointer `mouse` pixels into the container. */
  function AnchoredTranslate(translate: real, mouse: real, oldScale: real, newScale: real): (t: real)
    requires oldScale != 0.0
    ensures newScale != 0.0 ==> (mouse - t) / newScale == (mouse - translate) / oldScale
    ensures mouse == translate ==> t == translate
  {
    var t := translate - (mouse - translate) * (newScale / oldScale - 1.0);
    AnchorIdentity(translate, mouse, oldScale, newScale, t);
    t
  }

  lemma AnchorIdentity(translate: real, mouse: real, oldScale: real, newScale: real, t: real)
    requires oldScale != 0.0
    requires t == translate - (mouse - translate) * (newScale / oldScale - 1.0)
    ensures newScale != 0.0 ==> (mouse - t) / newScale == (mouse - translate) / oldScale
  {
    var d := mouse - translate;
    var k := newScale / oldScale;
    assert mouse - t == d * k;
    if newScale != 0.0 {
      assert k / newScale == 1.0 / oldScale;
      assert (d * k) / newScale == d * (k / newScale);
      assert d * (1.0 / oldScale) == d / oldScale;
    }
  }

  /** The content point under the pointer stays under it across a zoom. */
  lemma ZoomKeepsPointerAnchored(client: real, origin: real, translate: real, scale: real, deltaY: real)
    requires scale != 0.0
    ensures ScreenToContent(client, origin,
              AnchoredTranslate(translate, client - origin, scale, ZoomedScale(scale, deltaY)),
              ZoomedScale(scale, deltaY))
         == ScreenToContent(client, origin, translate, scale)
  {
    var s' := ZoomedScale(scale, deltaY);
    var t' := AnchoredTranslate(translate, client - origin, scale, s');
    assert client - origin - t' == (client - origin) - t';
  }

  /** The scale after `n` wheel events in the same direction. */
  function Zoomed(scale: real, deltaY: real, n: nat): (s: real)
    ensures n > 0 ==> 0.1 <= s <= 3.0
  {
    if n == 0 then scale else ZoomedScale(Zoomed(scale, deltaY, n - 1), deltaY)
  }

  lemma {:induction false} ZoomInBound(scale: real, deltaY: real, n: nat)
    requires deltaY <= 0.0 && n >= 1
    ensures Zoomed(scale, deltaY, n) >= Min(3.0, 0.1 * n as real)
  {
    if n > 1 {
      ZoomInBound(scale, deltaY, n - 1);
    }
  }

  lemma {:induction false} ZoomOutBound(scale: real, deltaY: real, n: nat)
    requires deltaY > 0.0 && n >= 1
    ensures Zoomed(scale, deltaY, n) <= Max(0.1, 3.0 - 0.1 * (n - 1) as real)
  {
    if n > 1 {
      ZoomOutBound(scale, deltaY, n - 1);
    }
  }

  /** From any scale, thirty wheel events in one direction saturate the
      scale at 3 (zooming in) or 0.1 (zooming out), and more change nothing. */
  lemma ZoomSaturates(scale: real, deltaY: real, n: nat)
    requires n >= 30
    ensures Zoomed(scale, deltaY, n) == if deltaY > 0.0 then 0.1 else 3.0
  {
    if deltaY > 0.0 {
      ZoomOutBound(scale, deltaY, n);
    } else {
      ZoomInBound(scale, deltaY, n);
    }
  }

  // ---------------------------------------------------------------------
  // Placed shapes and their saved form

  /** The shape a drop of payload `p` places at content position (x, y). */
  function DroppedShape(p: DropPayload, x: real, y: real, scale: real): (s: Shape)
    requires scale != 0.0
    ensures s.points == p.points && ColorsKept([s])
    ensures Truthy(p.color) ==> s.color == p.color
    ensures !Truthy(p.color) ==> s.color == None
    ensures s.left == Some(x) && s.top == Some(y)
    ensures s.size * scale == 100.0
  {
    Shape(p.points, KeptColor(p.color), Some(x), Some(y), 100.0 / scale)
  }

  /** Colour attributes are only ever written when truthy. */
  ghost predicate ColorsKept(shapes: seq<Shape>)
  {
    forall i :: 0 <= i < |shapes| ==> shapes[i].color == KeptColor(shapes[i].color)
  }

  function SaveShape(s: Shape): (r: SavedShape)
  {
    SavedShape(s.points, s.color, s.left, s.top, false)
  }

  /** The saved form of the placed shapes, in order, each marked as not
      belonging to the staging zone. */
  function SaveShapes(shapes: seq<Shape>): (r: seq<SavedShape>)
    ensures |r| == |shapes|
    ensures forall i :: 0 <= i < |r| ==>
              !r[i].buffer && r[i].points == shapes[i].points && r[i].color == shapes[i].color
              && r[i].left == shapes[i].left && r[i].top == shapes[i].top
  {
    seq(|shapes|, i requires 0 <= i < |shapes| => SaveShape(shapes[i]))
  }

  /** The shape rebuilt from one saved entry at this scale. */
  function RestoredShape(p: SavedShape, scale: real): (s: Shape)
    requires scale != 0.0
    ensures s.points == p.points && s.left == p.left && s.top == p.top
    ensures Truthy(p.color) ==> s.color == p.color
    ensures !Truthy(p.color) ==> s.color == None
    ensures s.size * scale == 100.0
  {
    Shape(p.points, KeptColor(p.color), p.left, p.top, 100.0 / scale)
  }

  /** The shapes the workspace rebuilds from a saved list at this scale:
      one for every entry not marked as staged, in order. */
  function RestoreShapes(saved: seq<SavedShape>, scale: real): (r: seq<Shape>)
    requires scale != 0.0
    ensures |r| <= |saved|
    ensures ColorsKept(r)
    ensures forall i :: 0 <= i < |r| ==> r[i].size == 100.0 / scale
  {
    if saved == [] then []
    else
      var last := saved[|saved| - 1];
      RestoreShapes(saved[..|saved| - 1], scale) + if last.buffer then [] else [RestoredShape(last, scale)]
  }

  /** Restoring a concatenation restores each part: together with the
      one-entry cases this says RestoreShapes keeps exactly the unstaged
      entries, in their order. */
  lemma {:induction false} RestoreShapesAppend(a: seq<SavedShape>, b: seq<SavedShape>, scale: real)
    requires scale != 0.0
    ensures RestoreShapes(a + b, scale) == RestoreShapes(a, scale) + RestoreShapes(b, scale)
  {
    if b == [] {
      assert a + b == a;
    } else {
      var b', last := b[..|b| - 1], b[|b| - 1];
      assert (a + b)[..|a + b| - 1] == a + b';
      assert (a + b)[|a + b| - 1] == last;
      RestoreShapesAppend(a, b', scale);
    }
  }

  lemma RestoreShapesSingle(p: SavedShape, scale: real)
    requires scale != 0.0
    ensures RestoreShapes([p], scale) == if p.buffer then [] else [RestoredShape(p, scale)]
  {
    assert [p][..0] == [];
  }

  /** Saving and restoring the placed shapes gives them back with their
      points, colours and positions; only their size is taken afresh from
      the scale at restore time. */
  lemma {:induction false} SaveRestoreShapes(shapes: seq<Shape>, scale: real)
    requires scale != 0.0
    requires ColorsKept(shapes)
    ensures |RestoreShapes(SaveShapes(shapes), scale)| == |shapes|
    ensures forall i :: 0 <= i < |shapes| ==>
              RestoreShapes(SaveShapes(shapes), scale)[i] == shapes[i].(size := 100.0 / scale)
  {
    if shapes != [] {
      var init := shapes[..|shapes| - 1];
      assert SaveShapes(shapes)[..|shapes| - 1] == SaveShapes(init);
      SaveRestoreShapes(init, scale);
    }
  }

  /** A saved viewport read back: falsy fields fall back to scale 1 and
      translation 0; nothing is clamped. */
  function RestoredView(v: SavedView): (r: View)
    ensures r.scale != 0.0
    ensures v.scale.Some? && v.scale.value != 0.0 ==> r.scale == v.scale.value
    ensures v.scale.None? || v.scale == Some(0.0) ==> r.scale == 1.0
    ensures v.translateX.Some? ==> r.translateX == v.translateX.value
    ensures v.translateX.None? ==> r.translateX == 0.0
    ensures v.translateY.Some? ==> r.translateY == v.translateY.value
    ensures v.translateY.None? ==> r.translateY == 0.0
  {
    View(NumberOr(v.scale, 1.0), NumberOr(v.translateX, 0.0), NumberOr(v.translateY, 0.0))
  }

  /** The saved form of a viewport: every field present. */
  function SaveView(v: View): (r: SavedView)
    ensures r.scale.Some? && r.translateX.Some? && r.translateY.Some?
    ensures v.scale != 0.0 ==> RestoredView(r) == v
  {
    SavedView(Some(v.scale), Some(v.translateX), Some(v.translateY))
  }

  // ---------------------------------------------------------------------
  // The workspace element

  class WorkspaceArea {
    var scale: real
    var translateX: real
    var translateY: real
    var isDragging: bool
    var startX: real
    var startY: real
    /** The shapes in the content layer, in document order. */
    var placed: seq<Shape>
    /** The transform last written to the content layer. */
    var transform: View
    var indicator: Indicator
    const rulerX: Rulers.Ruler
    const rulerY: Rulers.Ruler

    /** The content layer and both rulers show the current viewport. */
    ghost predicate Synced()
      reads this, rulerX, rulerY
    {
      transform == View(scale, translateX, translateY)
      && rulerX.Shows(scale, translateX) && rulerY.Shows(scale, translateY)
    }

    ghost predicate Valid()
      reads this, rulerX, rulerY
    {
      scale != 0.0 && rulerX != rulerY && rulerX.Valid() && rulerY.Valid()
      && Synced() && ColorsKept(placed)
    }

    /** Creates the workspace with rulers `rulerWidth` wide and
        `rulerHeight` high and connects it: identity viewport, pushed to the
        content layer and the rulers. */
    constructor (rulerWidth: real, rulerHeight: real)
      ensures Valid() && fresh(rulerX) && fresh(rulerY)
      ensures rulerX.length == rulerWidth && rulerY.length == rulerHeight
      ensures scale == 1.0 && translateX == 0.0 && translateY == 0.0
      ensures !isDragging && placed == [] && !indicator.visible
    {
      rulerX := new Rulers.Ruler(rulerWidth);
      rulerY := new Rulers.Ruler(rulerHeight);
      scale, translateX, translateY := 1.0, 0.0, 0.0;
      isDragging, startX, startY := false, 0.0, 0.0;
      placed := [];
      transform := View(1.0, 0.0, 0.0);
      indicator := Indicator(false, 0.0, 0.0, 0.0);
      new;
      UpdateTransform();
      UpdateRulers();
    }

    method UpdateTransform()
      modifies this`transform
      ensures transform == View(scale, translateX, translateY)
    {
      transform := View(scale, translateX, translateY);
    }

    /** Pushes scale and horizontal translation to the horizontal ruler and
        scale and vertical translation to the vertical one. */
    method UpdateRulers()
      requires scale != 0.0 && rulerX != rulerY && rulerX.Valid() && rulerY.Valid()
      modifies rulerX, rulerY
      ensures rulerX.Valid() && rulerY.Valid()
      ensures rulerX.Shows(scale, translateX) && rulerY.Shows(scale, translateY)
    {
      rulerX.AttributeChanged(Rulers.ScaleAttr, Some(scale));
      rulerX.AttributeChanged(Rulers.OffsetAttr, Some(translateX));
      rulerY.AttributeChanged(Rulers.ScaleAttr, Some(scale));
      rulerY.AttributeChanged(Rulers.OffsetAttr, Some(translateY));
    }

    method HandleDragEnter()
      requires Valid()
      modifies this`indicator
      ensures Valid()
      ensures indicator == old(indicator).(visible := true)
    {
      indicator := indicator.(visible := true);
    }

    /** Centres a square of side `100 / scale` on the pointer's content
        position. */
    method HandleDragOver(clientX: real, clientY: real, rectLeft: real, rectTop: real)
      requires Valid()
      modifies this`indicator
      ensures Valid()
      ensures indicator.visible == old(indicator.visible)
      ensures indicator.size == 100.0 / scale
      ensures indicator.left + indicator.size / 2.0 == ScreenToContent(clientX, rectLeft, translateX, scale)
      ensures indicator.top + indicator.size / 2.0 == ScreenToContent(clientY, rectTop, translateY, scale)
    {
      var size := 100.0 / scale;
      var x := (clientX - rectLeft - translateX) / scale;
      var y := (clientY - rectTop - translateY) / scale;
      indicator := Indicator(indicator.visible, x - size / 2.0, y - size / 2.0, size);
    }

    method HandleDragLeave()
      requires Valid()
      modifies this`indicator
      ensures Valid()
      ensures indicator == old(indicator).(visible := false)
    {
      indicator := indicator.(visible := false);
    }

    /** Zooms one step about the pointer. */
    method HandleWheel(deltaY: real, clientX: real, clientY: real, rectLeft: real, rectTop: real)
      requires Valid()
      modifies this, rulerX, rulerY
      ensures Valid()
      ensures scale == ZoomedScale(old(scale), deltaY)
      ensures translateX == AnchoredTranslate(old(translateX), clientX - rectLeft, old(scale), scale)
      ensures translateY == AnchoredTranslate(old(translateY), clientY - rectTop, old(scale), scale)
      ensures ScreenToContent(clientX, rectLeft, translateX, scale)
           == ScreenToContent(clientX, rectLeft, old(translateX), old(scale))
      ensures ScreenToContent(clientY, rectTop, translateY, scale)
           == ScreenToContent(clientY, rectTop, old(translateY), old(scale))
      ensures placed == old(placed) && indicator == old(indicator)
      ensures isDragging == old(isDragging) && startX == old(startX) && startY == old(startY)
    {
      var delta := if deltaY > 0.0 then -0.1 else 0.1;
      var newScale := Min(Max(0.1, scale + delta), 3.0);
      assert newScale == ZoomedScale(scale, deltaY);

      var mouseX := clientX - rectLeft;
      var mouseY := clientY - rectTop;

      ZoomKeepsPointerAnchored(clientX, rectLeft, translateX, scale, deltaY);
      ZoomKeepsPointerAnchored(clientY, rectTop, translateY, scale, deltaY);
      translateX := AnchoredTranslate(translateX, mouseX, scale, newScale);
      translateY := AnchoredTranslate(translateY, mouseY, scale, newScale);
      scale := newScale;
      UpdateTransform();
      UpdateRulers();
    }

    /** The primary button without Ctrl starts a pan; anything else is
        ignored. */
    method HandleMouseDown(button: int, ctrlKey: bool, clientX: real, clientY: real)
      requires Valid()
      modifies this`isDragging, this`startX, this`startY
      ensures Valid()
      ensures button == 0 && !ctrlKey ==>
                isDragging && startX == clientX - translateX && startY == clientY - translateY
      ensures !(button == 0 && !ctrlKey) ==>
                isDragging == old(isDragging) && startX == old(startX) && startY == old(startY)
    {
      if button == 0 && !ctrlKey {
        isDragging := true;
        startX := clientX - translateX;
        startY := clientY - translateY;
      }
    }

    /** While panning the translation follows the pointer one to one. */
    method HandleMouseMove(clientX: real, clientY: real)
      requires Valid()
      modifies this, rulerX, rulerY
      ensures Valid()
      ensures old(isDragging) ==> translateX == clientX - startX && translateY == clientY - startY
      ensures !old(isDragging) ==>
                translateX == old(translateX) && translateY == old(translateY)
                && unchanged(rulerX, rulerY) && transform == old(transform)
      ensures scale == old(scale) && placed == old(placed) && indicator == old(indicator)
      ensures isDragging == old(isDragging) && startX == old(startX) && startY == old(startY)
    {
      if isDragging {
        translateX := clientX - startX;
        translateY := clientY - startY;
        UpdateTransform();
        UpdateRulers();
      }
    }

    /** Releasing any button anywhere ends a pan. */
    method HandleMouseUp()
      requires Valid()
      modifies this`isDragging
      ensures Valid()
      ensures !isDragging
    {
      isDragging := false;
    }

    /** Hides the indicator and, when the drag carried a payload that
        parses, places one shape at the pointer's content position. */
    method HandleDrop(clientX: real, clientY: real, rectLeft: real, rectTop: real,
                      data: string, parse: string -> Option<DropPayload>)
      requires Valid()
      modifies this`indicator, this`placed
      ensures Valid()
      ensures indicator == old(indicator).(visible := false)
      ensures data == "" || parse(data).None? ==> placed == old(placed)
      ensures data != "" && parse(data).Some? ==>
                placed == old(placed) + [DroppedShape(parse(data).value,
                                                      ScreenToContent(clientX, rectLeft, translateX, scale),
                                                      ScreenToContent(clientY, rectTop, translateY, scale),
                                                      scale)]
    {
      indicator := indicator.(visible := false);

      if data != "" {
        match parse(data)
        case None =>
        case Some(polygonData) =>
          var x := (clientX - rectLeft - translateX) / scale;
          var y := (clientY - rectTop - translateY) / scale;
          var color := if Truthy(polygonData.color) then polygonData.color else None;
          placed := placed + [Shape(polygonData.points, color, Some(x), Some(y), 100.0 / scale)];
      }
    }

    /** The saved form of the placed shapes, in order. */
    function GetPolygonsData(): (r: seq<SavedShape>)
      reads this
      ensures |r| == |placed|
      ensures forall i :: 0 <= i < |r| ==>
                !r[i].buffer && r[i].points == placed[i].points && r[i].color == placed[i].color
                && r[i].left == placed[i].left && r[i].top == placed[i].top
    {
      SaveShapes(placed)
    }

    /** Replaces the placed shapes with the unstaged entries of `polygons`,
        sized for the current scale. */
    method SetPolygonsData(polygons: seq<SavedShape>)
      requires Valid()
      modifies this`placed
      ensures Valid()
      ensures placed == RestoreShapes(polygons, scale)
    {
      placed := [];
      for i := 0 to |polygons|
        invariant placed == RestoreShapes(polygons[..i], scale)
      {
        var polyData := polygons[i];
        assert polygons[..i + 1][..i] == polygons[..i];
        if !polyData.buffer {
          var color := if Truthy(polyData.color) then polyData.color else None;
          placed := placed + [Shape(polyData.points, color, polyData.left, polyData.top, 100.0 / scale)];
        }
      }
      assert polygons[..|polygons|] == polygons;
    }

    /** The viewport as saved; reading it back restores the viewport. */
    function GetWorkspaceState(): (r: SavedView)
      reads this
      requires scale != 0.0
      ensures RestoredView(r) == View(scale, translateX, translateY)
    {
      SaveView(View(scale, translateX, translateY))
    }

    /** Takes the viewport from a saved state, unclamped, and pushes it. */
    method SetWorkspaceState(state: SavedView)
      requires Valid()
      modifies this, rulerX, rulerY
      ensures Valid()
      ensures View(scale, translateX, translateY) == RestoredView(state)
      ensures placed == old(placed) && indicator == old(indicator)
      ensures isDragging == old(isDragging) && startX == old(startX) && startY == old(startY)
    {
      scale := NumberOr(state.scale, 1.0);
      translateX := NumberOr(state.translateX, 0.0);
      translateY := NumberOr(state.translateY, 0.0);
      UpdateTransform();
      UpdateRulers();
    }

    /** Removes every placed shape and resets the viewport. */
    method Clear()
      requires Valid()
      modifies this, rulerX, rulerY
      ensures Valid()
      ensures placed == []
      ensures scale == 1.0 && translateX == 0.0 && translateY == 0.0
      ensures indicator == old(indicator)
      ensures isDragging == old(isDragging) && startX == old(startX) && startY == old(startY)
    {
      placed := [];
      scale := 1.0;
      translateX := 0.0;
      translateY := 0.0;
      UpdateTransform();
      UpdateRulers();
    }
  }

  // ---------------------------------------------------------------------
  // Scenarios

  /** A pan from (x0, y0) to (x1, y1) moves the content by exactly the
      pointer's displacement. */
  method PanGesture(w: WorkspaceArea, x0: real, y0: real, x1: real, y1: real)
    requires w.Valid()
    modifies w, w.rulerX, w.rulerY
    ensures w.Valid()
    ensures w.translateX == old(w.translateX) + (x1 - x0)
    ensures w.translateY == old(w.translateY) + (y1 - y0)
    ensures w.scale == old(w.scale) && w.placed == old(w.placed)
  {
    w.HandleMouseDown(0, false, x0, y0);
    w.HandleMouseMove(x1, y1);
    w.HandleMouseUp();
  }

  /** Restoring the workspace from its own saved shapes keeps every shape
      with its points, colour and position; sizes follow the current scale. */
  method SaveThenRestorePlaced(w: WorkspaceArea)
    requires w.Valid()
    modifies w
    ensures w.Valid()
    ensures w.scale == old(w.scale) && w.translateX == old(w.translateX) && w.translateY == old(w.translateY)
    ensures |w.placed| == |old(w.placed)|
    ensures forall i :: 0 <= i < |w.placed| ==> w.placed[i] == old(w.placed)[i].(size := 100.0 / w.scale)
  {
    var saved := w.GetPolygonsData();
    SaveRestoreShapes(w.placed, w.scale);
    w.SetPolygonsData(saved);
  }

  /** A drop at screen (140, 140) on a fresh workspace whose container
      starts at (40, 40) places the shape at content (100, 100). */
  method DropOnFreshWorkspace(payload: DropPayload) returns (placed: seq<Shape>)
    ensures |placed| == 1
    ensures placed[0].left == Some(100.0) && placed[0].top == Some(100.0)
    ensures placed[0].size == 100.0 && placed[0].points == payload.points
  {
    var w := new WorkspaceArea(800.0, 460.0);
    w.HandleDrop(140.0, 140.0, 40.0, 40.0, "{}", _ => Some(payload));
    placed := w.placed;
  }
}
