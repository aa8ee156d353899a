/** The top bar of components/top-bar.tsx: the random card composer and the
    screenshot check. The draws a run makes are inputs (module Draws). */
module Composer {
  import opened Wrappers
  import opened CanvasArea
  import opened Patterns
  import opened Draws

  // ---------------------------------------------------------------------
  // What a run places

  /** An image as `addImage` places it: selectable, evented, at (x, y),
      turned by `angle`. Its scale depends on the image's pixel size and is
      not modelled. */
  function Placed(lib: Library, index: nat, x: real, y: real, angle: real): (o: SceneObject)
    ensures o.kind == Picture(lib, index) && !o.isBackgroundRect && o.selectable && o.evented
  {
    SceneObject(Picture(lib, index), false, true, true, x, y, angle, 0.0, 0.0, 0.0, false)
  }

  /** The chosen background: tagged, inert, at the origin. */
  function BackgroundImage(c: RunChoices): (o: SceneObject)
    ensures o.isBackgroundRect && !o.selectable && !o.evented && o.kind.Picture? && o.kind.library == Backgrounds
  {
    SceneObject(Picture(Backgrounds, PickIndex(c.background, 8)), true, false, false, 0.0, 0.0, 0.0, 0.0, 0.0, 0.0, false)
  }

  /** A pixel coordinate: a fraction of the canvas width or height. */
  function Scale(extent: real, fraction: real): real { extent * fraction }

  /** The ten balloons: balloon i sits at base position i mod 11, jittered
      by up to 5% of the canvas either way. */
  function BalloonPlan(c: RunChoices, w: real, h: real): (plan: seq<SceneObject>)
    ensures |plan| == BalloonCount
  {
    seq(BalloonCount, i requires 0 <= i < BalloonCount =>
      Placed(Balloons, PickIndex(c.balloons[i].pick, 15),
             Scale(w, BalloonBases[i % 11].0 + (c.balloons[i].jitterX - 0.5) * 0.1),
             Scale(h, BalloonBases[i % 11].1 + (c.balloons[i].jitterY - 0.5) * 0.1),
             c.balloons[i].angle * 30.0 - 15.0))
  }

  /** Every balloon is an untagged balloon picture at its jittered base
      position; none is a character or a stamp. */
  lemma BalloonsPlaced(c: RunChoices, w: real, h: real)
    ensures var plan := BalloonPlan(c, w, h);
      Untagged(plan) && Lacks(plan, Characters) && Lacks(plan, KidPixStamps) &&
      forall i :: 0 <= i < BalloonCount ==>
        plan[i].kind.Picture? && plan[i].kind.library == Balloons &&
        plan[i].left == Scale(w, BalloonBases[i % 11].0 + (c.balloons[i].jitterX - 0.5) * 0.1) &&
        plan[i].top == Scale(h, BalloonBases[i % 11].1 + (c.balloons[i].jitterY - 0.5) * 0.1)
  {
  }

  /** The characters a run draws: `pickUnique(characters, 4)`. */
  function UniqueCharacters(c: RunChoices): (chosen: seq<nat>)
    ensures |chosen| == 4
    ensures forall k :: 0 <= k < 4 ==> chosen[k] == c.characterOrder[k]
  {
    PickUnique(Positions(LibrarySize(Characters)), 4, c.characterOrder)
  }

  /** The image slot j of the layout places: the next character, or a
      random decoration. */
  function SlotObject(c: RunChoices, slots: seq<Slot>, j: nat, w: real, h: real): (o: SceneObject)
    requires |slots| == |c.decorations| && j < |slots|
    ensures o.kind.Picture? && !o.isBackgroundRect
    ensures o.kind.library == if slots[j].kind == CharacterSlot then Characters else Decorations
  {
    var s := slots[j];
    match s.kind
    case CharacterSlot =>
      Placed(Characters, UniqueCharacters(c)[CharactersBefore(slots, j) % 4], Scale(w, s.x), Scale(h, s.y), s.angle)
    case DecorationSlot =>
      Placed(Decorations, PickIndex(c.decorations[j], 5), Scale(w, s.x), Scale(h, s.y), s.angle)
  }

  function TemplatePlan(c: RunChoices, slots: seq<Slot>, w: real, h: real): (plan: seq<SceneObject>)
    requires |slots| == |c.decorations|
    ensures |plan| == |slots|
  {
    seq(|slots|, j requires 0 <= j < |slots| => SlotObject(c, slots, j, w, h))
  }

  /** Slot j of the layout places `SlotObject` j, untagged and never a stamp. */
  lemma TemplatePlaced(c: RunChoices, slots: seq<Slot>, w: real, h: real)
    requires |slots| == |c.decorations|
    ensures var plan := TemplatePlan(c, slots, w, h);
      Untagged(plan) && Lacks(plan, KidPixStamps) &&
      forall j :: 0 <= j < |plan| ==> plan[j] == SlotObject(c, slots, j, w, h)
  {
  }

  /** `usedStamps = pickUnique(stamps, stampCount)`, each at a random spot. */
  function StampPlan(c: RunChoices, w: real, h: real): (plan: seq<SceneObject>)
    ensures |plan| == StampCount(c.stampCount)
  {
    var used := PickUnique(Positions(LibrarySize(KidPixStamps)), StampCount(c.stampCount), c.stampOrder);
    seq(|used|, i requires 0 <= i < |used| =>
      Placed(KidPixStamps, used[i], Scale(w, 0.1 + c.stamps[i].x * 0.8), Scale(h, 0.1 + c.stamps[i].y * 0.75),
             c.stamps[i].angle * 40.0 - 20.0))
  }

  /** Stamp i is the stamp at shuffled position i, untagged; none is a
      character. */
  lemma StampsPlaced(c: RunChoices, w: real, h: real)
    ensures var plan := StampPlan(c, w, h);
      Untagged(plan) && Lacks(plan, Characters) &&
      forall i :: 0 <= i < |plan| ==> plan[i].kind == Picture(KidPixStamps, c.stampOrder[i])
  {
  }

  function CakeObject(c: RunChoices, w: real, h: real): (o: SceneObject)
    ensures o.kind.Picture? && o.kind.library == Cakes && !o.isBackgroundRect
  {
    Placed(Cakes, PickIndex(c.cake, 8), Scale(w, 0.5), Scale(h, 0.62), 0.0)
  }

  /** The caption: a random text and font, in a color chosen from the
      background's contrasting colors, outlined (stroke width 1) exactly
      when that color is white. */
  function CaptionObject(c: RunChoices, w: real, h: real): (o: SceneObject)
    ensures o.kind.Caption? && o.selectable && o.evented && !o.isBackgroundRect
    ensures o.kind.text in BirthdayTexts && o.kind.fontFamily in CaptionFonts
    ensures o.kind.fill in TextColors[PickIndex(c.background, 8)]
    ensures o.kind.strokeWidth == 1 <==> o.kind.fill == White
    ensures o.kind.strokeWidth == 0 <==> o.kind.fill != White
  {
    var color := RandomPick(TextColors[PickIndex(c.background, 8)], c.textColor);
    SceneObject(Caption(RandomPick(BirthdayTexts, c.text), RandomPick(CaptionFonts, c.font), color,
                        if color == White then 1 else 0),
                false, true, true, w / 2.0, Scale(h, 0.62) - 280.0, 0.0, 0.0, 0.0, 0.0, false)
  }

  /** Which `addImage` calls fail to load, by position within each group:
      the k-th balloon, layout image or stamp, and the cake. */
  datatype Failures = Failures(balloons: set<nat>, template: set<nat>, stamps: set<nat>, cake: bool)

  /** The images of a plan that loaded: the image at position `first + k`
      of its group is placed unless that position is in `failed`, in which
      case its error is logged and nothing is placed. */
  function Kept(plan: seq<SceneObject>, failed: set<nat>, first: nat): (kept: seq<SceneObject>)
    ensures |kept| <= |plan|
    decreases |plan|
  {
    if plan == [] then []
    else (if first in failed then [] else [plan[0]]) + Kept(plan[1..], failed, first + 1)
  }

  lemma {:induction false} KeptAppend(a: seq<SceneObject>, b: seq<SceneObject>, failed: set<nat>, first: nat)
    ensures Kept(a + b, failed, first) == Kept(a, failed, first) + Kept(b, failed, first + |a|)
    decreases |a|
  {
    if a == [] {
      assert a + b == b;
    } else {
      assert (a + b)[1..] == a[1..] + b;
      KeptAppend(a[1..], b, failed, first + 1);
    }
  }

  /** Every kept image was planned. */
  lemma {:induction false} KeptFromPlan(plan: seq<SceneObject>, failed: set<nat>, first: nat)
    ensures forall x :: x in Kept(plan, failed, first) ==> x in plan
    decreases |plan|
  {
    if plan != [] {
      KeptFromPlan(plan[1..], failed, first + 1);
    }
  }

  /** The balloons, layout images, stamps and cake that loaded, in call
      order. */
  function Placements(balloons: seq<SceneObject>, template: seq<SceneObject>, stamps: seq<SceneObject>,
                      cake: SceneObject, failures: Failures): seq<SceneObject>
  {
    Kept(balloons, failures.balloons, 0) + Kept(template, failures.template, 0) +
    Kept(stamps, failures.stamps, 0) + (if failures.cake then [] else [cake])
  }

  /** The scene a run builds from its parts: the background, then the
      images that loaded, then the caption. */
  function Compose(background: SceneObject, balloons: seq<SceneObject>, template: seq<SceneObject>,
                   stamps: seq<SceneObject>, cake: SceneObject, caption: SceneObject, failures: Failures): seq<SceneObject>
  {
    [background] + Placements(balloons, template, stamps, cake, failures) + [caption]
  }

  /** The whole scene a run leaves when the background loads. */
  function DesignScene(c: RunChoices, w: real, h: real, failures: Failures): seq<SceneObject>
  {
    Compose(BackgroundImage(c), BalloonPlan(c, w, h), TemplatePlan(c, Layout(c), w, h), StampPlan(c, w, h),
            CakeObject(c, w, h), CaptionObject(c, w, h), failures)
  }

  // ---------------------------------------------------------------------
  // Repeats

  predicate OfLibrary(o: SceneObject, lib: Library)
  {
    o.kind.Picture? && o.kind.library == lib
  }

  /** No image of library `lib` appears twice. */
  predicate NoRepeat(objs: seq<SceneObject>, lib: Library)
  {
    forall i, j :: 0 <= i < j < |objs| && OfLibrary(objs[i], lib) ==> objs[i].kind != objs[j].kind
  }

  predicate Lacks(objs: seq<SceneObject>, lib: Library)
  {
    forall i :: 0 <= i < |objs| ==> !OfLibrary(objs[i], lib)
  }

  predicate Untagged(objs: seq<SceneObject>)
  {
    forall i :: 0 <= i < |objs| ==> !objs[i].isBackgroundRect
  }

  lemma NoRepeatJoin(a: seq<SceneObject>, b: seq<SceneObject>, lib: Library)
    requires NoRepeat(a, lib) && NoRepeat(b, lib) && (Lacks(a, lib) || Lacks(b, lib))
    ensures NoRepeat(a + b, lib)
  {
    var ab := a + b;
    forall i, j | 0 <= i < j < |ab| && OfLibrary(ab[i], lib)
      ensures ab[i].kind != ab[j].kind
    {
      if j < |a| {
        assert ab[i] == a[i] && ab[j] == a[j];
      } else if i >= |a| {
        assert ab[i] == b[i - |a|] && ab[j] == b[j - |a|];
      } else {
        assert ab[i] == a[i] && ab[j] == b[j - |a|];
        assert !Lacks(a, lib);
        assert !OfLibrary(b[j - |a|], lib);
      }
    }
  }

  lemma LacksJoin(a: seq<SceneObject>, b: seq<SceneObject>, lib: Library)
    requires Lacks(a, lib) && Lacks(b, lib)
    ensures Lacks(a + b, lib)
  {
    assert forall i :: 0 <= i < |a + b| ==> (a + b)[i] == if i < |a| then a[i] else b[i - |a|];
  }

  lemma UntaggedJoin(a: seq<SceneObject>, b: seq<SceneObject>)
    requires Untagged(a) && Untagged(b)
    ensures Untagged(a + b)
  {
    assert forall i :: 0 <= i < |a + b| ==> (a + b)[i] == if i < |a| then a[i] else b[i - |a|];
  }

  /** Dropping images that fail to load keeps a plan free of repeats. */
  lemma {:induction false} KeptKeepsNoRepeat(plan: seq<SceneObject>, failed: set<nat>, first: nat, lib: Library)
    requires NoRepeat(plan, lib)
    ensures NoRepeat(Kept(plan, failed, first), lib)
    decreases |plan|
  {
    if plan != [] {
      var rest := Kept(plan[1..], failed, first + 1);
      assert NoRepeat(plan[1..], lib);
      KeptKeepsNoRepeat(plan[1..], failed, first + 1, lib);
      KeptFromPlan(plan[1..], failed, first + 1);
      if first !in failed {
        var kept := [plan[0]] + rest;
        forall i, j | 0 <= i < j < |kept| && OfLibrary(kept[i], lib)
          ensures kept[i].kind != kept[j].kind
        {
          if i == 0 {
            assert kept[j] in plan[1..];
            var m :| 0 <= m < |plan[1..]| && plan[1..][m] == kept[j];
            assert plan[m + 1] == kept[j];
          } else {
            assert kept[i] == rest[i - 1] && kept[j] == rest[j - 1];
          }
        }
      } else {
        assert Kept(plan, failed, first) == rest;
      }
    }
  }

  /** Dropping images that fail to load brings in no new library and no tag. */
  lemma KeptLacks(plan: seq<SceneObject>, failed: set<nat>, first: nat, lib: Library)
    ensures Lacks(plan, lib) ==> Lacks(Kept(plan, failed, first), lib)
    ensures Untagged(plan) ==> Untagged(Kept(plan, failed, first))
  {
    KeptFromPlan(plan, failed, first);
    var kept := Kept(plan, failed, first);
    forall i | 0 <= i < |kept|
      ensures kept[i] in plan
    {
    }
  }

  /** Whatever fails to load, the images between background and caption
      carry no tag and no repeat of a library that only one of the three
      image groups draws from, provided that group has none. */
  lemma PlacementsKeepOrder(balloons: seq<SceneObject>, template: seq<SceneObject>, stamps: seq<SceneObject>,
                            cake: SceneObject, failures: Failures, lib: Library)
    requires Untagged(balloons) && Untagged(template) && Untagged(stamps)
    requires !cake.isBackgroundRect && !OfLibrary(cake, lib)
    requires NoRepeat(balloons, lib) && NoRepeat(template, lib) && NoRepeat(stamps, lib)
    requires (Lacks(balloons, lib) && Lacks(template, lib)) || (Lacks(balloons, lib) && Lacks(stamps, lib)) ||
             (Lacks(template, lib) && Lacks(stamps, lib))
    ensures var mid := Placements(balloons, template, stamps, cake, failures);
      Untagged(mid) && NoRepeat(mid, lib)
  {
    var kb := Kept(balloons, failures.balloons, 0);
    var kt := Kept(template, failures.template, 0);
    var ks := Kept(stamps, failures.stamps, 0);
    var kc: seq<SceneObject> := if failures.cake then [] else [cake];
    KeptLacks(balloons, failures.balloons, 0, lib);
    KeptLacks(template, failures.template, 0, lib);
    KeptLacks(stamps, failures.stamps, 0, lib);
    KeptKeepsNoRepeat(balloons, failures.balloons, 0, lib);
    KeptKeepsNoRepeat(template, failures.template, 0, lib);
    KeptKeepsNoRepeat(stamps, failures.stamps, 0, lib);
    UntaggedJoin(kb, kt);
    UntaggedJoin(kb + kt, ks);
    UntaggedJoin(kb + kt + ks, kc);
    NoRepeatJoin(kb, kt, lib);
    if Lacks(kb, lib) && Lacks(kt, lib) {
      LacksJoin(kb, kt, lib);
    }
    NoRepeatJoin(kb + kt, ks, lib);
    assert Lacks(kc, lib);
    NoRepeatJoin(kb + kt + ks, kc, lib);
  }

  /** Whatever fails to load, a composed scene has its background at the
      back, its caption on top, and no repeat of a library that only one of
      the three image groups draws from, provided that group has none. */
  lemma ComposeKeepsOrder(background: SceneObject, balloons: seq<SceneObject>, template: seq<SceneObject>,
                          stamps: seq<SceneObject>, cake: SceneObject, caption: SceneObject, failures: Failures,
                          lib: Library)
    requires background.isBackgroundRect && Untagged(balloons) && Untagged(template) && Untagged(stamps)
    requires !cake.isBackgroundRect && !caption.isBackgroundRect
    requires !OfLibrary(background, lib) && !OfLibrary(cake, lib) && !OfLibrary(caption, lib)
    requires NoRepeat(balloons, lib) && NoRepeat(template, lib) && NoRepeat(stamps, lib)
    requires (Lacks(balloons, lib) && Lacks(template, lib)) || (Lacks(balloons, lib) && Lacks(stamps, lib)) ||
             (Lacks(template, lib) && Lacks(stamps, lib))
    ensures var scene := Compose(background, balloons, template, stamps, cake, caption, failures);
      BackgroundAtBack(scene) && scene[0] == background && scene[|scene| - 1] == caption && NoRepeat(scene, lib)
  {
    PlacementsKeepOrder(balloons, template, stamps, cake, failures, lib);
    Framed(background, Placements(balloons, template, stamps, cake, failures), caption, lib);
  }

  /** A background in front of images that carry no tag and no repeat, and a
      caption on top of them. */
  lemma Framed(background: SceneObject, mid: seq<SceneObject>, caption: SceneObject, lib: Library)
    requires Untagged(mid) && !caption.isBackgroundRect
    requires NoRepeat(mid, lib) && !OfLibrary(background, lib) && !OfLibrary(caption, lib)
    ensures var scene := [background] + mid + [caption];
      BackgroundAtBack(scene) && scene[0] == background && scene[|scene| - 1] == caption && NoRepeat(scene, lib)
  {
    UntaggedJoin(mid, [caption]);
    var scene := [background] + mid + [caption];
    assert scene == [background] + (mid + [caption]);
    assert forall i :: 0 < i < |scene| ==> scene[i] == (mid + [caption])[i - 1];
    assert Lacks([background], lib) && Lacks([caption], lib);
    NoRepeatJoin([background], mid, lib);
    NoRepeatJoin([background] + mid, [caption], lib);
  }

  /** The layout places distinct characters: slot order and the `pickUnique`
      permutation never hand out the same character twice. */
  lemma TemplateCharactersDistinct(c: RunChoices, w: real, h: real)
    ensures NoRepeat(TemplatePlan(c, Layout(c), w, h), Characters)
  {
    var slots := Layout(c);
    var plan := TemplatePlan(c, slots, w, h);
    CharacterSlotsFitFour(TemplateAt(PickIndex(c.template, 5)));
    forall i, j | 0 <= i < j < |plan| && OfLibrary(plan[i], Characters)
      ensures plan[i].kind != plan[j].kind
    {
      assert plan[i] == SlotObject(c, slots, i, w, h) && plan[j] == SlotObject(c, slots, j, w, h);
      if slots[j].kind == CharacterSlot {
        assert slots[i].kind == CharacterSlot;
        CharactersBeforeGrows(slots, i, j);
        CharactersBeforeGrows(slots, j, |slots|);
        var a, b := CharactersBefore(slots, i), CharactersBefore(slots, j);
        assert a < b < 4;
        assert a % 4 == a && b % 4 == b;
        assert c.characterOrder[a] != c.characterOrder[b];
      }
    }
  }

  lemma StampsDistinct(c: RunChoices, w: real, h: real)
    ensures NoRepeat(StampPlan(c, w, h), KidPixStamps)
  {
    var plan := StampPlan(c, w, h);
    forall i, j | 0 <= i < j < |plan| && OfLibrary(plan[i], KidPixStamps)
      ensures plan[i].kind != plan[j].kind
    {
      assert c.stampOrder[i] != c.stampOrder[j];
    }
  }

  /** A run, whichever images fail to load, never places the same character
      or the same stamp twice, leaves its background as the one tagged
      object at the back, and its caption on top. */
  lemma DesignHasNoRepeats(c: RunChoices, w: real, h: real, failures: Failures)
    ensures NoRepeat(DesignScene(c, w, h, failures), Characters)
    ensures NoRepeat(DesignScene(c, w, h, failures), KidPixStamps)
    ensures BackgroundAtBack(DesignScene(c, w, h, failures))
    ensures DesignScene(c, w, h, failures)[0] == BackgroundImage(c)
    ensures DesignScene(c, w, h, failures)[|DesignScene(c, w, h, failures)| - 1] == CaptionObject(c, w, h)
  {
    var background, cake, caption := BackgroundImage(c), CakeObject(c, w, h), CaptionObject(c, w, h);
    var balloons, template, stamps := BalloonPlan(c, w, h), TemplatePlan(c, Layout(c), w, h), StampPlan(c, w, h);
    BalloonsPlaced(c, w, h);
    TemplatePlaced(c, Layout(c), w, h);
    StampsPlaced(c, w, h);
    TemplateCharactersDistinct(c, w, h);
    StampsDistinct(c, w, h);
    LacksNoRepeat(balloons, Characters);
    LacksNoRepeat(stamps, Characters);
    LacksNoRepeat(balloons, KidPixStamps);
    LacksNoRepeat(template, KidPixStamps);
    ComposeKeepsOrder(background, balloons, template, stamps, cake, caption, failures, Characters);
    ComposeKeepsOrder(background, balloons, template, stamps, cake, caption, failures, KidPixStamps);
  }

  lemma LacksNoRepeat(objs: seq<SceneObject>, lib: Library)
    requires Lacks(objs, lib)
    ensures NoRepeat(objs, lib)
  {
  }

  // ---------------------------------------------------------------------
  // The run

  /** One `addImage` call: the image is placed unless its load fails. */
  method AddImage(canvas: Canvas, o: SceneObject, fails: bool)
    modifies canvas`objects
    ensures canvas.objects == old(canvas.objects) + (if fails then [] else [o])
    ensures canvas.backgroundColor == old(canvas.backgroundColor)
    ensures canvas.width == old(canvas.width) && canvas.height == old(canvas.height)
  {
    if !fails {
      canvas.Add(o);
    }
  }

  /** The balloon loop: ten `addBalloon` calls, numbered 0 to 9. */
  method PlaceBalloons(canvas: Canvas, c: RunChoices, w: real, h: real, failed: set<nat>)
    modifies canvas`objects
    ensures canvas.objects == old(canvas.objects) + Kept(BalloonPlan(c, w, h), failed, 0)
    ensures canvas.backgroundColor == old(canvas.backgroundColor)
    ensures canvas.width == old(canvas.width) && canvas.height == old(canvas.height)
  {
    var balloons := BalloonPlan(c, w, h);
    var i := 0;
    while i < BalloonCount
      invariant 0 <= i <= BalloonCount
      invariant canvas.objects == old(canvas.objects) + Kept(balloons[..i], failed, 0)
      invariant canvas.backgroundColor == old(canvas.backgroundColor)
      invariant canvas.width == old(canvas.width) && canvas.height == old(canvas.height)
    {
      var pick := RandomPick(Positions(LibrarySize(Balloons)), c.balloons[i].pick);
      var base := BalloonBases[i % |BalloonBases|];
      var balloon := Placed(Balloons, pick, Scale(w, base.0 + (c.balloons[i].jitterX - 0.5) * 0.1),
                            Scale(h, base.1 + (c.balloons[i].jitterY - 0.5) * 0.1), c.balloons[i].angle * 30.0 - 15.0);
      assert balloon == balloons[i];
      ghost var placed := canvas.objects;
      AddImage(canvas, balloon, i in failed);
      KeptExtend(balloons, failed, i, old(canvas.objects), placed, canvas.objects);
      i := i + 1;
    }
    assert balloons[..BalloonCount] == balloons;
  }

  /** One more image of a plan placed: the one at position j. */
  lemma KeptExtend(plan: seq<SceneObject>, failed: set<nat>, j: nat,
                   before: seq<SceneObject>, placed: seq<SceneObject>, after: seq<SceneObject>)
    requires j < |plan|
    requires placed == before + Kept(plan[..j], failed, 0)
    requires after == placed + (if j in failed then [] else [plan[j]])
    ensures after == before + Kept(plan[..j + 1], failed, 0)
  {
    assert Kept([plan[j]], failed, j) == (if j in failed then [] else [plan[j]]) + Kept([], failed, j + 1);
    assert plan[..j + 1] == plan[..j] + [plan[j]];
    KeptAppend(plan[..j], [plan[j]], failed, 0);
  }

  /** The layout branch: its slots in order, numbered from 0, drawing the
      next character with the `characterIndex` counter. */
  method PlaceTemplate(canvas: Canvas, c: RunChoices, slots: seq<Slot>, w: real, h: real, failed: set<nat>)
    requires |slots| == |c.decorations|
    modifies canvas`objects
    ensures canvas.objects == old(canvas.objects) + Kept(TemplatePlan(c, slots, w, h), failed, 0)
    ensures canvas.backgroundColor == old(canvas.backgroundColor)
    ensures canvas.width == old(canvas.width) && canvas.height == old(canvas.height)
  {
    var template := TemplatePlan(c, slots, w, h);
    var unique := UniqueCharacters(c);
    var characterIndex := 0;
    var j := 0;
    while j < |slots|
      invariant 0 <= j <= |slots|
      invariant characterIndex == CharactersBefore(slots, j)
      invariant canvas.objects == old(canvas.objects) + Kept(template[..j], failed, 0)
      invariant canvas.backgroundColor == old(canvas.backgroundColor)
      invariant canvas.width == old(canvas.width) && canvas.height == old(canvas.height)
    {
      var s := slots[j];
      var image: SceneObject;
      if s.kind == CharacterSlot {
        image := Placed(Characters, unique[characterIndex % |unique|], Scale(w, s.x), Scale(h, s.y), s.angle);
        characterIndex := characterIndex + 1;
      } else {
        image := Placed(Decorations, RandomPick(Positions(LibrarySize(Decorations)), c.decorations[j]),
                        Scale(w, s.x), Scale(h, s.y), s.angle);
      }
      assert image == SlotObject(c, slots, j, w, h);
      ghost var placed := canvas.objects;
      AddImage(canvas, image, j in failed);
      KeptExtend(template, failed, j, old(canvas.objects), placed, canvas.objects);
      j := j + 1;
    }
    assert template[..|slots|] == template;
  }

  /** The stamp loop: `stampCount` distinct stamps, numbered from 0. */
  method PlaceStamps(canvas: Canvas, c: RunChoices, w: real, h: real, failed: set<nat>)
    modifies canvas`objects
    ensures canvas.objects == old(canvas.objects) + Kept(StampPlan(c, w, h), failed, 0)
    ensures canvas.backgroundColor == old(canvas.backgroundColor)
    ensures canvas.width == old(canvas.width) && canvas.height == old(canvas.height)
  {
    var stampCount := StampCount(c.stampCount);
    var usedStamps := PickUnique(Positions(LibrarySize(KidPixStamps)), stampCount, c.stampOrder);
    var stamps := StampPlan(c, w, h);
    var k := 0;
    while k < stampCount
      invariant 0 <= k <= stampCount
      invariant canvas.objects == old(canvas.objects) + Kept(stamps[..k], failed, 0)
      invariant canvas.backgroundColor == old(canvas.backgroundColor)
      invariant canvas.width == old(canvas.width) && canvas.height == old(canvas.height)
    {
      var d := c.stamps[k];
      var stamp := Placed(KidPixStamps, usedStamps[k], Scale(w, 0.1 + d.x * 0.8), Scale(h, 0.1 + d.y * 0.75),
                          d.angle * 40.0 - 20.0);
      assert stamp == stamps[k];
      ghost var placed := canvas.objects;
      AddImage(canvas, stamp, k in failed);
      KeptExtend(stamps, failed, k, old(canvas.objects), placed, canvas.objects);
      k := k + 1;
    }
    assert stamps[..stampCount] == stamps;
  }

  /** Everything between the background and the caption: balloons, layout,
      stamps and cake, in call order. */
  method PlaceImages(canvas: Canvas, c: RunChoices, w: real, h: real, failures: Failures)
    modifies canvas`objects
    ensures canvas.objects == old(canvas.objects) +
      Placements(BalloonPlan(c, w, h), TemplatePlan(c, Layout(c), w, h), StampPlan(c, w, h), CakeObject(c, w, h),
                 failures)
    ensures canvas.backgroundColor == old(canvas.backgroundColor)
    ensures canvas.width == old(canvas.width) && canvas.height == old(canvas.height)
  {
    var slots := Layout(c);
    var cake := CakeObject(c, w, h);
    ghost var before := canvas.objects;
    PlaceBalloons(canvas, c, w, h, failures.balloons);
    PlaceTemplate(canvas, c, slots, w, h, failures.template);
    PlaceStamps(canvas, c, w, h, failures.stamps);
    AddImage(canvas, cake, failures.cake);
    AppendFour(before, Kept(BalloonPlan(c, w, h), failures.balloons, 0), Kept(TemplatePlan(c, slots, w, h), failures.template, 0),
               Kept(StampPlan(c, w, h), failures.stamps, 0), if failures.cake then [] else [cake]);
  }

  lemma AppendFour(before: seq<SceneObject>, k1: seq<SceneObject>, k2: seq<SceneObject>, k3: seq<SceneObject>,
                   k4: seq<SceneObject>)
    ensures before + k1 + k2 + k3 + k4 == before + (k1 + k2 + k3 + k4)
  {
  }

  /** `handleRandomDesign` on a canvas: clears it and paints it white; if
      the background image fails to load the run stops there; otherwise it
      places the background at the back, ten balloons, the layout's
      characters and decorations, eight to ten distinct stamps, a cake and
      finally the caption, which it brings to the front. */
  method RandomDesign(canvas: Canvas, c: RunChoices, backgroundLoads: bool, failures: Failures)
    modifies canvas`objects, canvas`backgroundColor
    ensures canvas.backgroundColor == White
    ensures !backgroundLoads ==> canvas.objects == []
    ensures backgroundLoads ==>
      canvas.objects == DesignScene(c, EffectiveWidth(canvas.width), EffectiveHeight(canvas.height), failures)
    ensures canvas.width == old(canvas.width) && canvas.height == old(canvas.height)
  {
    canvas.Clear();
    canvas.backgroundColor := White;
    var w, h := EffectiveWidth(canvas.width), EffectiveHeight(canvas.height);
    if !backgroundLoads {
      return;
    }
    ComposeDesign(canvas, c, w, h, failures);
  }

  /** The part of a run after the background has loaded, on a cleared
      canvas: background at the back, the images in call order, and the
      caption brought to the front. */
  method ComposeDesign(canvas: Canvas, c: RunChoices, w: real, h: real, failures: Failures)
    requires canvas.objects == []
    modifies canvas`objects
    ensures canvas.objects == DesignScene(c, w, h, failures)
    ensures canvas.backgroundColor == old(canvas.backgroundColor)
    ensures canvas.width == old(canvas.width) && canvas.height == old(canvas.height)
  {
    var background, caption := BackgroundImage(c), CaptionObject(c, w, h);
    ghost var balloons, template, stamps := BalloonPlan(c, w, h), TemplatePlan(c, Layout(c), w, h), StampPlan(c, w, h);
    ghost var cake := CakeObject(c, w, h);
    canvas.Add(background);
    canvas.SendToBack(0);
    assert canvas.objects == [background];
    PlaceImages(canvas, c, w, h, failures);
    ghost var body := canvas.objects;
    canvas.Add(caption);
    canvas.BringToFront(|canvas.objects| - 1);
    TopStaysOnTop(body, caption);
  }

  /** Bringing the top object to the front leaves the order as it is. */
  lemma TopStaysOnTop(s: seq<SceneObject>, o: SceneObject)
    ensures (s + [o])[..|s|] + (s + [o])[|s| + 1..] + [(s + [o])[|s|]] == s + [o]
  {
    assert (s + [o])[..|s|] == s;
  }

  // ---------------------------------------------------------------------
  // Saving

  datatype SaveOutcome = Downloaded(dataUrl: string) | ErrorAlert

  /** `handleSaveScreenshot`: nothing without a canvas; an empty image or the
      bare `"data:,"` takes the error path and no link is created;
      anything else is downloaded. */
  function SaveScreenshot(canvasPresent: bool, dataUrl: string): (outcome: Option<SaveOutcome>)
    ensures outcome.None? <==> !canvasPresent
    ensures outcome == Some(ErrorAlert) <==> canvasPresent && (dataUrl == "" || dataUrl == "data:,")
    ensures outcome.Some? && outcome.value.Downloaded? ==>
      outcome.value.dataUrl == dataUrl && dataUrl != "" && dataUrl != "data:,"
  {
    if !canvasPresent then None
    else if dataUrl == "" || dataUrl == "data:," then Some(ErrorAlert)
    else Some(Downloaded(dataUrl))
  }
}
