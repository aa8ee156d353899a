/** The random draws of a card composition in components/top-bar.tsx and
    the tables they index. Every `Math.random()` the composer calls is an
    input: a real in [0, 1) for each `randomPick` and each jitter, and a
    permutation of positions for each sort-based shuffle. Assets are named
    by library and position (the lists in top-bar.tsx hold no duplicates). */
module Draws {
  import opened CanvasArea

  // ---------------------------------------------------------------------
  // Random picks

  /** `Math.floor(r * n)` for a random r in [0, 1): always a position of a
      list of n entries. */
  function PickIndex(r: real, n: nat): (i: nat)
    requires 0.0 <= r < 1.0 && n > 0
    ensures i < n
    ensures i as real <= r * n as real < i as real + 1.0
  {
    ProductNonNegative(r, n as real);
    assert r * n as real < n as real by {
      assert (1.0 - r) * n as real > 0.0 by { ProductPositive(1.0 - r, n as real); }
    }
    (r * n as real).Floor
  }

  lemma ProductPositive(a: real, b: real)
    requires a > 0.0 && b > 0.0
    ensures a * b > 0.0
  {
  }

  /** `randomPick(arr)`: the entry at `Math.floor(r * arr.length)`. */
  function RandomPick<T>(arr: seq<T>, r: real): (x: T)
    requires |arr| > 0 && 0.0 <= r < 1.0
    ensures x in arr
    ensures x == arr[PickIndex(r, |arr|)]
  {
    arr[PickIndex(r, |arr|)]
  }

  /** The positions 0 .. n-1 in some order: what sorting a copy of a list of
      n entries with a random comparator can produce. */
  predicate IsPermutation(order: seq<nat>, n: nat)
  {
    |order| == n &&
    (forall i :: 0 <= i < n ==> order[i] < n) &&
    (forall i, j :: 0 <= i < j < n ==> order[i] != order[j])
  }

  function Min(a: int, b: int): int { if a <= b then a else b }

  /** `pickUnique(arr, count)`: the first `min(count, arr.length)` entries of
      the shuffled copy, given the shuffle as the permutation `order`. */
  function PickUnique<T>(arr: seq<T>, count: nat, order: seq<nat>): (picked: seq<T>)
    requires IsPermutation(order, |arr|)
    ensures |picked| == Min(count, |arr|)
    ensures forall k :: 0 <= k < |picked| ==> picked[k] == arr[order[k]] && picked[k] in arr
  {
    seq(Min(count, |arr|), k requires 0 <= k < Min(count, |arr|) => arr[order[k]])
  }

  /** Picks come from distinct positions: from a list without duplicates,
      `pickUnique` never returns the same entry twice. */
  lemma PickUniqueDistinct<T>(arr: seq<T>, count: nat, order: seq<nat>)
    requires IsPermutation(order, |arr|)
    requires forall i, j :: 0 <= i < j < |arr| ==> arr[i] != arr[j]
    ensures forall i, j :: 0 <= i < j < |PickUnique(arr, count, order)| ==>
      PickUnique(arr, count, order)[i] != PickUnique(arr, count, order)[j]
  {
    var picked := PickUnique(arr, count, order);
    forall i, j | 0 <= i < j < |picked|
      ensures picked[i] != picked[j]
    {
      assert order[i] != order[j];
      if order[i] < order[j] {
        assert arr[order[i]] != arr[order[j]];
      } else {
        assert arr[order[j]] != arr[order[i]];
      }
    }
  }

  /** The positions of a list of n entries, in order. */
  function Positions(n: nat): (ps: seq<nat>)
    ensures |ps| == n && forall i :: 0 <= i < n ==> ps[i] == i
  {
    seq(n, i requires 0 <= i < n => i)
  }

  // ---------------------------------------------------------------------
  // The asset lists

  function LibrarySize(lib: Library): nat
  {
    match lib
    case Backgrounds => 8
    case Balloons => 15
    case Decorations => 5
    case Characters => 20
    case Cakes => 8
    case KidPixStamps => 30
    case Uploaded => 0
  }

  /** The caption colors that contrast with each background, in list order. */
  const TextColors: seq<seq<string>> := [
    ["#ffffff", "#ffd700", "#00ffff"],
    ["#4a0080", "#ff1493", "#ffffff"],
    ["#ff1493", "#4a0080", "#ffffff"],
    ["#ffd700", "#ffffff", "#00ffff"],
    ["#ffd700", "#ffffff", "#ff69b4"],
    ["#4a0080", "#c71585", "#ffffff"],
    ["#ffffff", "#ff1493", "#4a0080"],
    ["#ffffff", "#ffd700", "#ff69b4"]]

  const BirthdayTexts: seq<string> := [
    "Happy 30th Lauren!", "Happy Birthday Lauren!", "Dirty 30!",
    "30 & Fabulous!", "Cheers to 30!", "Lauren turns 30!"]

  const CaptionFonts: seq<string> := [
    "Bagel Fat One, cursive", "Pixelify Sans, monospace", "Imperial Script, cursive"]

  /** Where the balloons go, as fractions of the canvas size. */
  const BalloonBases: seq<(real, real)> := [
    (0.1, 0.2), (0.9, 0.15), (0.15, 0.6), (0.85, 0.55), (0.05, 0.85), (0.95, 0.8),
    (0.3, 0.1), (0.7, 0.08), (0.5, 0.9), (0.2, 0.45), (0.8, 0.4)]

  const BalloonCount: nat := 10

  /** The five layouts, in list order. */
  datatype Template = CornerDecorations | FrameStyle | ScatteredFun | ElegantMinimal | PartyExplosion

  function TemplateAt(i: nat): Template
    requires i < 5
  {
    [CornerDecorations, FrameStyle, ScatteredFun, ElegantMinimal, PartyExplosion][i]
  }

  /** One image a layout places: a character or a random decoration at a
      position given as fractions of the canvas size, turned by `angle`. */
  datatype SlotKind = CharacterSlot | DecorationSlot
  datatype Slot = Slot(kind: SlotKind, x: real, y: real, angle: real)

  /** The images each layout adds, in the order it adds them. */
  function TemplateSlots(t: Template): seq<Slot>
  {
    match t
    case CornerDecorations =>
      [Slot(DecorationSlot, 0.12, 0.12, -15.0), Slot(DecorationSlot, 0.88, 0.12, 15.0),
       Slot(CharacterSlot, 0.15, 0.55, 0.0), Slot(CharacterSlot, 0.85, 0.55, 0.0)]
    case FrameStyle =>
      [Slot(DecorationSlot, 0.15, 0.08, -10.0), Slot(DecorationSlot, 0.85, 0.08, 10.0),
       Slot(CharacterSlot, 0.12, 0.5, 0.0), Slot(CharacterSlot, 0.88, 0.5, 0.0)]
    case ScatteredFun =>
      [Slot(CharacterSlot, 0.15, 0.45, 0.0), Slot(CharacterSlot, 0.85, 0.5, 0.0),
       Slot(CharacterSlot, 0.2, 0.8, 0.0),
       Slot(DecorationSlot, 0.1, 0.15, 0.0), Slot(DecorationSlot, 0.9, 0.15, 0.0)]
    case ElegantMinimal =>
      [Slot(CharacterSlot, 0.15, 0.5, 0.0), Slot(CharacterSlot, 0.85, 0.5, 0.0),
       Slot(DecorationSlot, 0.1, 0.1, -10.0), Slot(DecorationSlot, 0.9, 0.1, 10.0)]
    case PartyExplosion =>
      [Slot(CharacterSlot, 0.12, 0.4, 0.0), Slot(CharacterSlot, 0.88, 0.4, 0.0),
       Slot(CharacterSlot, 0.2, 0.75, 0.0), Slot(CharacterSlot, 0.8, 0.75, 0.0),
       Slot(DecorationSlot, 0.1, 0.1, -15.0), Slot(DecorationSlot, 0.9, 0.1, 15.0)]
  }

  /** How many character slots come before slot j: the value of the
      `characterIndex` counter when slot j is filled. */
  function CharactersBefore(slots: seq<Slot>, j: nat): nat
    requires j <= |slots|
  {
    if j == 0 then 0
    else CharactersBefore(slots, j - 1) + (if slots[j - 1].kind == CharacterSlot then 1 else 0)
  }

  /** The layouts use 2, 2, 3, 2 and 4 characters: never more than the four
      `pickUnique(characters, 4)` draws, so `getNextCharacter` never wraps. */
  lemma CharacterSlotsFitFour(t: Template)
    ensures CharactersBefore(TemplateSlots(t), |TemplateSlots(t)|) ==
      match t
      case CornerDecorations => 2
      case FrameStyle => 2
      case ScatteredFun => 3
      case ElegantMinimal => 2
      case PartyExplosion => 4
    ensures forall j :: 0 <= j <= |TemplateSlots(t)| ==> CharactersBefore(TemplateSlots(t), j) <= 4
  {
    var slots := TemplateSlots(t);
    assert CharactersBefore(slots, 1) <= 1;
    assert CharactersBefore(slots, 2) <= 2;
    assert CharactersBefore(slots, 3) <= 3;
    assert CharactersBefore(slots, 4) == if t == ScatteredFun then 3 else if t == PartyExplosion then 4 else 2;
    if |slots| > 4 {
      assert CharactersBefore(slots, 5) == if t == ScatteredFun then 3 else 4;
    }
    if |slots| > 5 {
      assert CharactersBefore(slots, 6) == 4;
    }
    forall j | 0 <= j <= |slots|
      ensures CharactersBefore(slots, j) <= CharactersBefore(slots, |slots|)
    {
      CharactersBeforeGrows(slots, j, |slots|);
    }
  }

  /** The counter never decreases, and passes every character slot. */
  lemma {:induction false} CharactersBeforeGrows(slots: seq<Slot>, i: nat, j: nat)
    requires i <= j <= |slots|
    ensures CharactersBefore(slots, i) <= CharactersBefore(slots, j)
    ensures i < j && slots[i].kind == CharacterSlot ==> CharactersBefore(slots, i) < CharactersBefore(slots, j)
    decreases j
  {
    if i < j {
      CharactersBeforeGrows(slots, i, j - 1);
    }
  }

  // ---------------------------------------------------------------------
  // The random inputs of one run

  /** The numbers one balloon draws: its size (unused here, the image scale
      is not modelled), its pick, its jitter and its angle. */
  datatype BalloonDraw = BalloonDraw(size: real, pick: real, jitterX: real, jitterY: real, angle: real)
  datatype StampDraw = StampDraw(x: real, y: real, angle: real)

  datatype Choices = Choices(
    background: real,
    template: real,
    characterOrder: seq<nat>,
    balloons: seq<BalloonDraw>,
    decorations: seq<real>,
    stampCount: real,
    stampOrder: seq<nat>,
    stamps: seq<StampDraw>,
    cake: real,
    text: real,
    font: real,
    textColor: real)

  predicate Unit(r: real) { 0.0 <= r < 1.0 }

  /** The layout a run picks. */
  function Layout(c: Choices): seq<Slot>
    requires Unit(c.template)
  {
    TemplateSlots(TemplateAt(PickIndex(c.template, 5)))
  }

  /** What `Math.random()` and the two shuffles can produce: reals in
      [0, 1), permutations, and one draw per balloon, layout slot and stamp. */
  predicate ValidChoices(c: Choices)
  {
    SingleDraws(c) && Shuffles(c) && BalloonDraws(c) && LayoutDraws(c) && StampDraws(c)
  }

  /** The draws one run can make. */
  type RunChoices = c: Choices | ValidChoices(c)
    witness Choices(0.0, 0.0, Positions(20), seq(10, _ => BalloonDraw(0.0, 0.0, 0.0, 0.0, 0.0)),
                    [0.0, 0.0, 0.0, 0.0], 0.0, Positions(30), seq(8, _ => StampDraw(0.0, 0.0, 0.0)),
                    0.0, 0.0, 0.0, 0.0)

  /** The draws made once per run. */
  predicate SingleDraws(c: Choices)
  {
    Unit(c.background) && Unit(c.template) && Unit(c.stampCount) &&
    Unit(c.cake) && Unit(c.text) && Unit(c.font) && Unit(c.textColor)
  }

  /** The two sort-based shuffles. */
  predicate Shuffles(c: Choices)
  {
    IsPermutation(c.characterOrder, LibrarySize(Characters)) &&
    IsPermutation(c.stampOrder, LibrarySize(KidPixStamps))
  }

  /** Five draws per balloon. */
  predicate BalloonDraws(c: Choices)
  {
    |c.balloons| == BalloonCount &&
    forall k :: 0 <= k < |c.balloons| ==>
      Unit(c.balloons[k].size) && Unit(c.balloons[k].pick) && Unit(c.balloons[k].jitterX) &&
      Unit(c.balloons[k].jitterY) && Unit(c.balloons[k].angle)
  }

  /** One draw per slot of the layout. */
  predicate LayoutDraws(c: Choices)
    requires Unit(c.template)
  {
    |c.decorations| == |Layout(c)| && forall k :: 0 <= k < |c.decorations| ==> Unit(c.decorations[k])
  }

  /** Three draws per stamp. */
  predicate StampDraws(c: Choices)
    requires Unit(c.stampCount)
  {
    |c.stamps| == StampCount(c.stampCount) &&
    forall k :: 0 <= k < |c.stamps| ==> Unit(c.stamps[k].x) && Unit(c.stamps[k].y) && Unit(c.stamps[k].angle)
  }

  /** `8 + Math.floor(Math.random() * 3)`: eight, nine or ten stamps. */
  function StampCount(r: real): (n: nat)
    requires Unit(r)
    ensures 8 <= n <= 10
  {
    8 + PickIndex(r, 3)
  }
}
