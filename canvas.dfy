/** The Fabric canvas of components/canvas-area.tsx as the app sees it: an
    ordered list of scene objects (index 0 is the back, the last is the
    front) with the flags the app reads and writes, the background color,
    the drawing mode, the selection switch and the free-drawing brush. */
module CanvasArea {
  import opened Wrappers
  import opened Patterns

  /** The image libraries a picture comes from; a picture is named by its
      library and its position in that library's list. */
  datatype Library =
    | Backgrounds | Balloons | Decorations | Characters | Cakes | KidPixStamps | Uploaded

  /** What an object on the canvas is. */
  datatype ObjectKind =
    | Path
    | Emoji(glyph: string)
    | Shape(name: string)
    | Caption(text: string, fontFamily: string, fill: string, strokeWidth: nat)
    | Picture(library: Library, index: nat)
    | PatternRect(tile: seq<Draw>)

  /** A scene object. `width` and `scaleX` are 0 when unset: the app reads
      them as `width || 0` and `scaleX || 1`. */
  datatype SceneObject = SceneObject(
    kind: ObjectKind,
    isBackgroundRect: bool,
    selectable: bool,
    evented: bool,
    left: real,
    top: real,
    angle: real,
    width: real,
    height: real,
    scaleX: real,
    flipX: bool)

  datatype BrushShape = Round | Square | Spray
  datatype BrushKind = PencilBrush | CircleBrush

  /** A free-drawing brush; cap and join are only set on pencil brushes. */
  datatype Brush = Brush(kind: BrushKind, width: int, color: string,
                         lineCap: Option<string>, lineJoin: Option<string>)

  /** `createBrush`: spray is a circle brush three times as wide; round and
      square are pencil brushes of the given width with their own cap and join. */
  function CreateBrush(shape: BrushShape, color: string, size: int): (b: Brush)
    ensures b.kind == CircleBrush <==> shape == Spray
    ensures b.width == if shape == Spray then 3 * size else size
    ensures b.color == color
    ensures shape == Spray ==> b.lineCap.None? && b.lineJoin.None?
    ensures shape == Round ==> b.lineCap == Some("round") && b.lineJoin == Some("round")
    ensures shape == Square ==> b.lineCap == Some("square") && b.lineJoin == Some("miter")
  {
    match shape
    case Spray => Brush(CircleBrush, size * 3, color, None, None)
    case Square => Brush(PencilBrush, size, color, Some("square"), Some("miter"))
    case Round => Brush(PencilBrush, size, color, Some("round"), Some("round"))
  }

  /** The eraser paints with the canvas background color, white when unset. */
  function EraserColor(backgroundColor: string): (c: string)
    ensures c == (if backgroundColor == "" then White else backgroundColor)
    ensures c != ""
  {
    if backgroundColor == "" then White else backgroundColor
  }

  /** `canvas.width || 800` and `canvas.height || 600`. */
  function EffectiveWidth(width: real): real { if width == 0.0 then 800.0 else width }
  function EffectiveHeight(height: real): real { if height == 0.0 then 600.0 else height }

  // ---------------------------------------------------------------------
  // Background rects

  /** How many objects carry the background tag. */
  function BackgroundCount(objs: seq<SceneObject>): nat
  {
    if objs == [] then 0
    else (if objs[0].isBackgroundRect then 1 else 0) + BackgroundCount(objs[1..])
  }

  /** The objects without the background tag, in order: what mirror and
      scramble work on (`getObjects().filter(obj => !obj.isBackgroundRect)`). */
  function Foreground(objs: seq<SceneObject>): seq<SceneObject>
  {
    if objs == [] then []
    else (if objs[0].isBackgroundRect then [] else [objs[0]]) + Foreground(objs[1..])
  }

  /** A tagged object can only sit at the back. */
  predicate BackgroundAtBack(objs: seq<SceneObject>)
  {
    forall i :: 0 < i < |objs| ==> !objs[i].isBackgroundRect
  }

  /** `getObjects().find(obj => obj.isBackgroundRect)`: the position of the
      first tagged object, if any. */
  function FirstBackground(objs: seq<SceneObject>): (r: Option<nat>)
    ensures r.None? <==> forall j :: 0 <= j < |objs| ==> !objs[j].isBackgroundRect
    ensures r.Some? ==> r.value < |objs| && objs[r.value].isBackgroundRect &&
                        forall j :: 0 <= j < r.value ==> !objs[j].isBackgroundRect
  {
    if objs == [] then None
    else if objs[0].isBackgroundRect then Some(0)
    else match FirstBackground(objs[1..])
      case None => None
      case Some(k) => Some(k + 1)
  }

  /** The list after `canvas.remove(existingBgRect)`: the first tagged
      object is taken out, everything else stays in order. */
  function WithoutFirstBackground(objs: seq<SceneObject>): (r: seq<SceneObject>)
    ensures FirstBackground(objs).None? ==> r == objs
    ensures FirstBackground(objs).Some? ==> |r| == |objs| - 1
  {
    match FirstBackground(objs)
    case None => objs
    case Some(i) => objs[..i] + objs[i + 1..]
  }

  lemma {:induction false} ForegroundAppend(a: seq<SceneObject>, b: seq<SceneObject>)
    ensures Foreground(a + b) == Foreground(a) + Foreground(b)
    decreases |a|
  {
    if a == [] {
      assert a + b == b;
    } else {
      assert (a + b)[1..] == a[1..] + b;
      ForegroundAppend(a[1..], b);
    }
  }

  lemma {:induction false} BackgroundCountAppend(a: seq<SceneObject>, b: seq<SceneObject>)
    ensures BackgroundCount(a + b) == BackgroundCount(a) + BackgroundCount(b)
    decreases |a|
  {
    if a == [] {
      assert a + b == b;
    } else {
      assert (a + b)[1..] == a[1..] + b;
      BackgroundCountAppend(a[1..], b);
    }
  }

  lemma {:induction false} NoBackgroundCountsZero(objs: seq<SceneObject>)
    requires forall j :: 0 <= j < |objs| ==> !objs[j].isBackgroundRect
    ensures BackgroundCount(objs) == 0
    ensures Foreground(objs) == objs
    decreases |objs|
  {
    if objs != [] {
      NoBackgroundCountsZero(objs[1..]);
    }
  }

  /** Removing the background rect takes exactly one tagged object out when
      there is one, and never touches the untagged objects or their order. */
  lemma RemovalKeepsForeground(objs: seq<SceneObject>)
    ensures Foreground(WithoutFirstBackground(objs)) == Foreground(objs)
    ensures BackgroundCount(WithoutFirstBackground(objs)) ==
            if FirstBackground(objs).Some? then BackgroundCount(objs) - 1 else BackgroundCount(objs)
  {
    match FirstBackground(objs)
    case None =>
    case Some(i) =>
      var pre, mid, post := objs[..i], objs[i..i + 1], objs[i + 1..];
      assert objs == pre + mid + post;
      assert WithoutFirstBackground(objs) == pre + post;
      ForegroundAppend(pre, post);
      ForegroundAppend(pre + mid, post);
      ForegroundAppend(pre, mid);
      BackgroundCountAppend(pre, post);
      BackgroundCountAppend(pre + mid, post);
      BackgroundCountAppend(pre, mid);
      assert Foreground(mid) == [] && BackgroundCount(mid) == 1 by {
        assert mid[1..] == [];
      }
  }

  /** The rect a non-solid fill puts behind everything: the tile repeated
      over the whole canvas, tagged, neither selectable nor evented. */
  function BackgroundRect(tile: seq<Draw>, width: real, height: real): (rect: SceneObject)
    ensures rect.isBackgroundRect && !rect.selectable && !rect.evented
    ensures rect.kind == PatternRect(tile)
    ensures rect.left == 0.0 && rect.top == 0.0
    ensures rect.width == EffectiveWidth(width) && rect.height == EffectiveHeight(height)
  {
    SceneObject(PatternRect(tile), true, false, false, 0.0, 0.0, 0.0, EffectiveWidth(width), EffectiveHeight(height),
                1.0, false)
  }

  /** A fill never leaves two background rects: from a scene with at most
      one, removing the first and adding one at the back leaves exactly one,
      at index 0, in front of the untouched foreground. */
  lemma FillLeavesOneBackground(objs: seq<SceneObject>, rect: SceneObject)
    requires BackgroundCount(objs) <= 1
    requires rect.isBackgroundRect
    ensures BackgroundCount(WithoutFirstBackground(objs)) == 0
    ensures BackgroundCount([rect] + WithoutFirstBackground(objs)) == 1
    ensures BackgroundAtBack([rect] + WithoutFirstBackground(objs))
    ensures Foreground([rect] + WithoutFirstBackground(objs)) == Foreground(objs)
  {
    var rest := WithoutFirstBackground(objs);
    RemovalKeepsForeground(objs);
    if FirstBackground(objs).None? {
      NoBackgroundCountsZero(objs);
    }
    assert BackgroundCount(rest) == 0;
    ZeroCountHasNoBackground(rest);
    BackgroundCountAppend([rect], rest);
    ForegroundAppend([rect], rest);
    assert Foreground([rect]) == [] by { assert [rect][1..] == []; }
    assert BackgroundCount([rect]) == 1 by { assert [rect][1..] == []; }
  }

  lemma {:induction false} ZeroCountHasNoBackground(objs: seq<SceneObject>)
    requires BackgroundCount(objs) == 0
    ensures forall j :: 0 <= j < |objs| ==> !objs[j].isBackgroundRect
    decreases |objs|
  {
    if objs != [] {
      ZeroCountHasNoBackground(objs[1..]);
      assert forall j :: 1 <= j < |objs| ==> objs[j] == objs[1..][j - 1];
    }
  }

  /** A scene that satisfies the background discipline keeps satisfying it
      after the first tagged object is removed. */
  lemma RemovalKeepsBackgroundAtBack(objs: seq<SceneObject>)
    requires BackgroundAtBack(objs)
    ensures BackgroundCount(WithoutFirstBackground(objs)) == 0
  {
    var rest := WithoutFirstBackground(objs);
    match FirstBackground(objs)
    case None =>
      NoBackgroundCountsZero(objs);
    case Some(i) =>
      assert i == 0;
      assert rest == objs[1..];
      assert forall j :: 0 <= j < |rest| ==> rest[j] == objs[j + 1];
      NoBackgroundCountsZero(rest);
  }

  // ---------------------------------------------------------------------
  // Tool mode, mirror and scramble as functions of the scene

  /** The object with both interaction flags set to `on`. */
  function Interactive(o: SceneObject, on: bool): SceneObject
  {
    o.(selectable := on, evented := on)
  }

  /** The scene after `forEachObject(obj => { obj.selectable = on; obj.evented = on })`. */
  function InteractiveScene(objs: seq<SceneObject>, on: bool): seq<SceneObject>
  {
    seq(|objs|, i requires 0 <= i < |objs| => Interactive(objs[i], on))
  }

  /** Switching interaction on or off touches no tag, no kind and no position. */
  lemma {:induction false} InteractionKeepsScene(objs: seq<SceneObject>, on: bool)
    ensures |InteractiveScene(objs, on)| == |objs|
    ensures BackgroundCount(InteractiveScene(objs, on)) == BackgroundCount(objs)
    ensures forall i :: 0 <= i < |objs| ==>
      var o := InteractiveScene(objs, on)[i];
      o.selectable == on && o.evented == on && o.kind == objs[i].kind &&
      o.isBackgroundRect == objs[i].isBackgroundRect && o.left == objs[i].left && o.top == objs[i].top
    decreases |objs|
  {
    if objs != [] {
      InteractionKeepsScene(objs[1..], on);
      assert InteractiveScene(objs, on)[1..] == InteractiveScene(objs[1..], on);
    }
  }

  /** The mirror of one object about the vertical centre line of a canvas of
      width `canvasWidth`: `left` becomes `W - left - width * (scaleX || 1)`
      and the object flips. */
  function MirrorObject(o: SceneObject, canvasWidth: real): SceneObject
  {
    o.(left := canvasWidth - o.left - o.width * (if o.scaleX == 0.0 then 1.0 else o.scaleX),
       flipX := !o.flipX)
  }

  /** The scene after the mirror effect: untagged objects mirrored, the
      background rect untouched. */
  function MirroredScene(objs: seq<SceneObject>, canvasWidth: real): seq<SceneObject>
  {
    seq(|objs|, i requires 0 <= i < |objs| =>
      if objs[i].isBackgroundRect then objs[i] else MirrorObject(objs[i], canvasWidth))
  }

  /** Mirroring is an involution: mirroring twice restores every object. */
  lemma MirrorTwiceRestores(objs: seq<SceneObject>, canvasWidth: real)
    ensures MirroredScene(MirroredScene(objs, canvasWidth), canvasWidth) == objs
  {
    var once := MirroredScene(objs, canvasWidth);
    var twice := MirroredScene(once, canvasWidth);
    forall i | 0 <= i < |objs|
      ensures twice[i] == objs[i]
    {
      if !objs[i].isBackgroundRect {
        var o := objs[i];
        var s := if o.scaleX == 0.0 then 1.0 else o.scaleX;
        assert once[i].left == canvasWidth - o.left - o.width * s;
        assert twice[i].left == canvasWidth - once[i].left - o.width * s;
      }
    }
  }

  /** Mirroring changes only untagged objects, and only their `left` and `flipX`. */
  lemma MirrorKeepsBackground(objs: seq<SceneObject>, canvasWidth: real)
    ensures |MirroredScene(objs, canvasWidth)| == |objs|
    ensures forall i :: 0 <= i < |objs| && objs[i].isBackgroundRect ==> MirroredScene(objs, canvasWidth)[i] == objs[i]
    ensures forall i :: 0 <= i < |objs| && !objs[i].isBackgroundRect ==>
      MirroredScene(objs, canvasWidth)[i].flipX != objs[i].flipX &&
      MirroredScene(objs, canvasWidth)[i] == objs[i].(left := MirroredScene(objs, canvasWidth)[i].left, flipX := !objs[i].flipX)
  {
  }

  /** Three numbers drawn from `Math.random()`, one triple per object. */
  datatype Draws = Draws(forLeft: real, forTop: real, forAngle: real)

  predicate UnitDraws(d: Draws)
  {
    0.0 <= d.forLeft < 1.0 && 0.0 <= d.forTop < 1.0 && 0.0 <= d.forAngle < 1.0
  }

  /** `Math.random() * (extent - 100) + 50`: a coordinate drawn from a
      random number `r`. */
  function Scatter(r: real, extent: real): real
  {
    r * (extent - 100.0) + 50.0
  }

  /** A scattered coordinate stays 50 pixels inside an extent of at least 100. */
  lemma ScatterStaysInside(r: real, extent: real)
    requires 0.0 <= r < 1.0 && extent >= 100.0
    ensures 50.0 <= Scatter(r, extent) <= extent - 50.0
  {
    var e := extent - 100.0;
    ProductNonNegative(r, e);
    ProductNonNegative(1.0 - r, e);
    assert (1.0 - r) * e == e - r * e;
  }

  lemma ProductNonNegative(a: real, b: real)
    requires a >= 0.0 && b >= 0.0
    ensures a * b >= 0.0
  {
  }

  /** One object moved by the scramble effect. */
  function ScrambleObject(o: SceneObject, d: Draws, canvasWidth: real, canvasHeight: real): SceneObject
  {
    o.(left := Scatter(d.forLeft, canvasWidth), top := Scatter(d.forTop, canvasHeight), angle := d.forAngle * 360.0)
  }

  /** The scramble effect keeps every scrambled object 50 pixels inside a
      canvas at least 100 pixels wide and high, turns it by an angle in
      [0, 360) and changes nothing else about it. */
  lemma ScrambleStaysInside(o: SceneObject, d: Draws, canvasWidth: real, canvasHeight: real)
    requires UnitDraws(d) && canvasWidth >= 100.0 && canvasHeight >= 100.0
    ensures 50.0 <= ScrambleObject(o, d, canvasWidth, canvasHeight).left <= canvasWidth - 50.0
    ensures 50.0 <= ScrambleObject(o, d, canvasWidth, canvasHeight).top <= canvasHeight - 50.0
    ensures 0.0 <= ScrambleObject(o, d, canvasWidth, canvasHeight).angle < 360.0
    ensures ScrambleObject(o, d, canvasWidth, canvasHeight).(left := o.left, top := o.top, angle := o.angle) == o
  {
    ScatterStaysInside(d.forLeft, canvasWidth);
    ScatterStaysInside(d.forTop, canvasHeight);
  }

  /** The scene after the scramble effect: untagged object i moved by draw i. */
  function ScrambledScene(objs: seq<SceneObject>, draws: seq<Draws>, canvasWidth: real, canvasHeight: real): seq<SceneObject>
    requires |draws| == |objs|
  {
    seq(|objs|, i requires 0 <= i < |objs| =>
      if objs[i].isBackgroundRect then objs[i] else ScrambleObject(objs[i], draws[i], canvasWidth, canvasHeight))
  }

  /** Mirror and scramble never add, remove, tag or untag an object. */
  lemma {:induction false} EffectsKeepTags(objs: seq<SceneObject>, draws: seq<Draws>, canvasWidth: real, canvasHeight: real)
    requires |draws| == |objs|
    ensures BackgroundCount(MirroredScene(objs, canvasWidth)) == BackgroundCount(objs)
    ensures BackgroundCount(ScrambledScene(objs, draws, canvasWidth, canvasHeight)) == BackgroundCount(objs)
    decreases |objs|
  {
    if objs != [] {
      EffectsKeepTags(objs[1..], draws[1..], canvasWidth, canvasHeight);
      assert MirroredScene(objs, canvasWidth)[1..] == MirroredScene(objs[1..], canvasWidth);
      assert ScrambledScene(objs, draws, canvasWidth, canvasHeight)[1..] ==
             ScrambledScene(objs[1..], draws[1..], canvasWidth, canvasHeight);
    }
  }

  // ---------------------------------------------------------------------
  // The canvas

  class Canvas {
    var objects: seq<SceneObject>
    var backgroundColor: string
    var isDrawingMode: bool
    var selection: bool
    var brush: Option<Brush>
    var width: real
    var height: real

    /** The app keeps at most one background rect, and keeps it at the back. */
    predicate Valid()
      reads this
    {
      BackgroundAtBack(objects)
    }

    /** The canvas the app creates: white, empty, in drawing mode with a
        pencil brush of the current color and size. */
    constructor(w: real, h: real, color: string, brushSize: int)
      ensures Valid()
      ensures objects == [] && backgroundColor == White && isDrawingMode && selection
      ensures brush == Some(Brush(PencilBrush, brushSize, color, None, None))
      ensures width == w && height == h
    {
      objects := [];
      backgroundColor := White;
      isDrawingMode := true;
      selection := true;
      brush := Some(Brush(PencilBrush, brushSize, color, None, None));
      width := w;
      height := h;
    }

    /** `canvas.add(o)`: the new object goes on top. */
    method Add(o: SceneObject)
      modifies this`objects
      ensures objects == old(objects) + [o]
      ensures backgroundColor == old(backgroundColor) && width == old(width) && height == old(height)
      ensures isDrawingMode == old(isDrawingMode) && selection == old(selection) && brush == old(brush)
    {
      objects := objects + [o];
    }

    /** `canvas.sendObjectToBack`: object i moves to index 0, the others keep their order. */
    method SendToBack(i: nat)
      requires i < |objects|
      modifies this`objects
      ensures objects == [old(objects)[i]] + old(objects)[..i] + old(objects)[i + 1..]
      ensures backgroundColor == old(backgroundColor) && width == old(width) && height == old(height)
      ensures isDrawingMode == old(isDrawingMode) && selection == old(selection) && brush == old(brush)
    {
      objects := [objects[i]] + objects[..i] + objects[i + 1..];
    }

    /** `canvas.bringObjectToFront`: object i moves to the top, the others keep their order. */
    method BringToFront(i: nat)
      requires i < |objects|
      modifies this`objects
      ensures objects == old(objects)[..i] + old(objects)[i + 1..] + [old(objects)[i]]
      ensures backgroundColor == old(backgroundColor) && width == old(width) && height == old(height)
      ensures isDrawingMode == old(isDrawingMode) && selection == old(selection) && brush == old(brush)
    {
      objects := objects[..i] + objects[i + 1..] + [objects[i]];
    }

    /** `canvas.clear()`: no objects, no background color. */
    method Clear()
      modifies this`objects, this`backgroundColor
      ensures objects == [] && backgroundColor == ""
      ensures width == old(width) && height == old(height)
      ensures isDrawingMode == old(isDrawingMode) && selection == old(selection) && brush == old(brush)
    {
      objects := [];
      backgroundColor := "";
    }

    /** `fillCanvas`: removes the background rect, then either paints the
        canvas color (solid) or paints it white and puts a pattern rect behind
        everything. Without a 2D context the canvas is left white and bare. */
    method FillCanvas(color: string, pattern: FillPattern, contextAvailable: bool)
      modifies this
      ensures backgroundColor == if pattern == Solid then color else White
      ensures pattern == Solid || !contextAvailable ==> objects == WithoutFirstBackground(old(objects))
      ensures pattern != Solid && contextAvailable ==>
        |objects| >= 1 && objects[1..] == WithoutFirstBackground(old(objects)) &&
        objects[0].kind.PatternRect? &&
        objects[0] == BackgroundRect(objects[0].kind.tile, width, height) &&
        PatternTile(color, pattern, objects[0].kind.tile)
      ensures old(Valid()) ==> Valid()
      ensures Foreground(objects) == Foreground(old(objects))
      ensures width == old(width) && height == old(height)
      ensures isDrawingMode == old(isDrawingMode) && selection == old(selection) && brush == old(brush)
    {
      RemoveBackgroundRect();
      if pattern == Solid {
        backgroundColor := color;
      } else {
        backgroundColor := White;
        var tile := CreatePatternCanvas(color, pattern, contextAvailable);
        if tile.Some? {
          AddBackgroundRect(tile.value);
        }
      }
    }

    /** The fill branch of the `mouse:down` handler: nothing in drawing mode;
        otherwise the same removal, but the canvas turns white only when the
        pattern tile could be drawn. */
    method PointerDownFill(color: string, pattern: FillPattern, contextAvailable: bool)
      modifies this
      ensures old(isDrawingMode) ==> objects == old(objects) && backgroundColor == old(backgroundColor)
      ensures !old(isDrawingMode) ==>
        backgroundColor == if pattern == Solid then color else if contextAvailable then White else old(backgroundColor)
      ensures !old(isDrawingMode) && (pattern == Solid || !contextAvailable) ==>
        objects == WithoutFirstBackground(old(objects))
      ensures !old(isDrawingMode) && pattern != Solid && contextAvailable ==>
        |objects| >= 1 && objects[1..] == WithoutFirstBackground(old(objects)) &&
        objects[0].kind.PatternRect? && objects[0] == BackgroundRect(objects[0].kind.tile, width, height) &&
        PatternTile(color, pattern, objects[0].kind.tile)
      ensures old(Valid()) ==> Valid()
      ensures Foreground(objects) == Foreground(old(objects))
      ensures width == old(width) && height == old(height)
      ensures isDrawingMode == old(isDrawingMode) && selection == old(selection) && brush == old(brush)
    {
      if isDrawingMode {
        return;
      }
      RemoveBackgroundRect();
      if pattern == Solid {
        backgroundColor := color;
      } else {
        var tile := CreatePatternCanvas(color, pattern, contextAvailable);
        if tile.Some? {
          backgroundColor := White;
          AddBackgroundRect(tile.value);
        }
      }
    }

    /** `canvas.remove(find(isBackgroundRect))`. */
    method RemoveBackgroundRect()
      modifies this
      ensures objects == WithoutFirstBackground(old(objects))
      ensures Foreground(objects) == Foreground(old(objects))
      ensures old(Valid()) ==> Valid() && BackgroundCount(objects) == 0
      ensures backgroundColor == old(backgroundColor) && width == old(width) && height == old(height)
      ensures isDrawingMode == old(isDrawingMode) && selection == old(selection) && brush == old(brush)
    {
      RemovalKeepsForeground(objects);
      if Valid() {
        RemovalKeepsBackgroundAtBack(objects);
        ZeroCountHasNoBackground(WithoutFirstBackground(objects));
      }
      objects := WithoutFirstBackground(objects);
    }

    /** `canvas.add(bgRect); canvas.sendObjectToBack(bgRect)` on a scene
        with no background rect left. */
    method AddBackgroundRect(tile: seq<Draw>)
      modifies this
      ensures objects == [BackgroundRect(tile, width, height)] + old(objects)
      ensures Foreground(objects) == Foreground(old(objects))
      ensures old(Valid()) && BackgroundCount(old(objects)) == 0 ==> Valid()
      ensures backgroundColor == old(backgroundColor) && width == old(width) && height == old(height)
      ensures isDrawingMode == old(isDrawingMode) && selection == old(selection) && brush == old(brush)
    {
      var rect := BackgroundRect(tile, width, height);
      ForegroundAppend([rect], objects);
      assert Foreground([rect]) == [] by { assert [rect][1..] == []; }
      if Valid() && BackgroundCount(objects) == 0 {
        ZeroCountHasNoBackground(objects);
      }
      objects := [rect] + objects;
    }

    /** The tool-mode effect: drawing mode exactly for brush and eraser, each
        with its brush (the eraser paints with the background color); move
        makes every object selectable and evented, every other tool makes
        every object inert; brush and eraser leave the flags alone. */
    method ApplyToolMode(tool: string, color: string, brushShape: BrushShape, brushSize: int,
                         eraserShape: BrushShape, eraserSize: int)
      modifies this
      ensures isDrawingMode <==> tool == "brush" || tool == "eraser"
      ensures tool == "brush" ==> brush == Some(CreateBrush(brushShape, color, brushSize))
      ensures tool == "eraser" ==> brush == Some(CreateBrush(eraserShape, EraserColor(backgroundColor), eraserSize))
      ensures tool == "brush" || tool == "eraser" ==> objects == old(objects) && selection == old(selection)
      ensures tool != "brush" && tool != "eraser" ==>
        brush == old(brush) && selection == (tool == "move") &&
        objects == InteractiveScene(old(objects), tool == "move")
      ensures old(Valid()) ==> Valid()
      ensures backgroundColor == old(backgroundColor) && width == old(width) && height == old(height)
    {
      if tool == "brush" {
        isDrawingMode := true;
        brush := Some(CreateBrush(brushShape, color, brushSize));
      } else if tool == "eraser" {
        isDrawingMode := true;
        brush := Some(CreateBrush(eraserShape, EraserColor(backgroundColor), eraserSize));
      } else {
        isDrawingMode := false;
      }
      if tool == "move" {
        selection := true;
        SetInteraction(true);
      } else if tool != "brush" && tool != "eraser" {
        selection := false;
        SetInteraction(false);
      }
    }

    /** `forEachObject(obj => { obj.selectable = on; obj.evented = on })`. */
    method SetInteraction(on: bool)
      modifies this
      ensures objects == InteractiveScene(old(objects), on)
      ensures old(Valid()) ==> Valid()
      ensures backgroundColor == old(backgroundColor) && width == old(width) && height == old(height)
      ensures isDrawingMode == old(isDrawingMode) && selection == old(selection) && brush == old(brush)
    {
      var i := 0;
      while i < |objects|
        invariant 0 <= i <= |objects| == |old(objects)|
        invariant backgroundColor == old(backgroundColor) && width == old(width) && height == old(height)
        invariant isDrawingMode == old(isDrawingMode) && selection == old(selection) && brush == old(brush)
        invariant forall j :: 0 <= j < i ==> objects[j] == Interactive(old(objects)[j], on)
        invariant forall j :: i <= j < |objects| ==> objects[j] == old(objects)[j]
      {
        objects := objects[i := Interactive(objects[i], on)];
        i := i + 1;
      }
    }

    /** The mirror effect: every untagged object is mirrored about the
        vertical centre line of the canvas; the background rect stays. */
    method Mirror()
      modifies this
      ensures objects == MirroredScene(old(objects), EffectiveWidth(width))
      ensures old(Valid()) ==> Valid()
      ensures backgroundColor == old(backgroundColor) && width == old(width) && height == old(height)
      ensures isDrawingMode == old(isDrawingMode) && selection == old(selection) && brush == old(brush)
    {
      var canvasWidth := EffectiveWidth(width);
      var i := 0;
      while i < |objects|
        invariant 0 <= i <= |objects| == |old(objects)|
        invariant backgroundColor == old(backgroundColor) && width == old(width) && height == old(height)
        invariant isDrawingMode == old(isDrawingMode) && selection == old(selection) && brush == old(brush)
        invariant forall j :: 0 <= j < i ==>
          objects[j] == if old(objects)[j].isBackgroundRect then old(objects)[j] else MirrorObject(old(objects)[j], canvasWidth)
        invariant forall j :: i <= j < |objects| ==> objects[j] == old(objects)[j]
      {
        if !objects[i].isBackgroundRect {
          objects := objects[i := MirrorObject(objects[i], canvasWidth)];
        }
        i := i + 1;
      }
    }

    /** The scramble effect: every untagged object gets a random position
        50 pixels inside the canvas and a random angle; `draws` holds the
        numbers `Math.random()` returned, one triple per object. */
    method Scramble(draws: seq<Draws>)
      requires |draws| == |objects|
      requires forall k :: 0 <= k < |draws| ==> UnitDraws(draws[k])
      modifies this
      ensures objects == ScrambledScene(old(objects), draws, EffectiveWidth(width), EffectiveHeight(height))
      ensures old(Valid()) ==> Valid()
      ensures backgroundColor == old(backgroundColor) && width == old(width) && height == old(height)
      ensures isDrawingMode == old(isDrawingMode) && selection == old(selection) && brush == old(brush)
    {
      var canvasWidth, canvasHeight := EffectiveWidth(width), EffectiveHeight(height);
      var i := 0;
      while i < |objects|
        invariant 0 <= i <= |objects| == |old(objects)|
        invariant backgroundColor == old(backgroundColor) && width == old(width) && height == old(height)
        invariant isDrawingMode == old(isDrawingMode) && selection == old(selection) && brush == old(brush)
        invariant forall j :: 0 <= j < i ==>
          objects[j] == if old(objects)[j].isBackgroundRect then old(objects)[j]
          else ScrambleObject(old(objects)[j], draws[j], canvasWidth, canvasHeight)
        invariant forall j :: i <= j < |objects| ==> objects[j] == old(objects)[j]
      {
        if !objects[i].isBackgroundRect {
          objects := objects[i := ScrambleObject(objects[i], draws[i], canvasWidth, canvasHeight)];
        }
        i := i + 1;
      }
    }
  }
}
