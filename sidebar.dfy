/**
 * The desktop tool sidebar: the paginated stamp and shape pickers, the
 * KidPix stamp list, the tool buttons and their drawers, the custom-text
 * box, and the preview the Background button shows.
 */
module Sidebar {
  import opened Wrappers

  // ---------------------------------------------------------------------
  // Pagination

  /** `Math.ceil(n / k)`: the fewest pages of k that hold n items. */
  function TotalPages(n: nat, k: nat): (t: nat)
    requires k > 0
    ensures t * k >= n
    ensures t > 0 ==> (t - 1) * k < n
    ensures t == 0 <==> n == 0
  {
    var t := (n + k - 1) / k;
    assert n + k - 1 == t * k + (n + k - 1) % k;
    assert (t - 1) * k == t * k - k;
    t
  }

  /** The last page the buttons can reach (page 0 when there are no items). */
  function LastPage(n: nat, k: nat): nat
    requires k > 0
  {
    if TotalPages(n, k) == 0 then 0 else TotalPages(n, k) - 1
  }

  function Min(a: int, b: int): int { if a <= b then a else b }

  /** `items.slice(page * k, page * k + k)`, clamped to the list as `slice`
      does. */
  function Visible<T>(items: seq<T>, page: nat, k: nat): (v: seq<T>)
    ensures |v| <= k
    ensures forall j :: 0 <= j < |v| ==> page * k + j < |items| && v[j] == items[page * k + j]
    ensures page * k <= |items| ==> |v| == Min(page * k + k, |items|) - page * k
  {
    var start := Min(page * k, |items|);
    items[start..Min(page * k + k, |items|)]
  }

  /** Every item is shown on some page the buttons can reach: item i is at
      position i mod k of page i div k. */
  lemma EveryItemHasAPage<T>(items: seq<T>, k: nat, i: nat)
    requires k > 0 && i < |items|
    ensures i / k <= LastPage(|items|, k)
    ensures i % k < |Visible(items, i / k, k)| && Visible(items, i / k, k)[i % k] == items[i]
  {
    var p, t := i / k, TotalPages(|items|, k);
    assert i == p * k + i % k;
    if t <= p {
      MulMonotone(t, p, k);
      assert false;
    }
  }

  lemma {:induction false} MulMonotone(a: nat, b: nat, k: nat)
    requires a <= b
    ensures a * k <= b * k
    decreases b - a
  {
    if a < b {
      MulMonotone(a, b - 1, k);
      assert b * k == (b - 1) * k + k;
    }
  }

  /** The page state of one picker. */
  class PaginatedPicker<T> {
    const items: seq<T>
    const itemsPerPage: nat
    var page: nat

    predicate Valid()
      reads this
    {
      itemsPerPage > 0 && page <= LastPage(|items|, itemsPerPage)
    }

    /** A picker starts on its first page; eight items a page unless told. */
    constructor(items: seq<T>, itemsPerPage: nat)
      requires itemsPerPage > 0
      ensures Valid() && this.items == items && this.itemsPerPage == itemsPerPage && page == 0
    {
      this.items := items;
      this.itemsPerPage := itemsPerPage;
      page := 0;
    }

    function VisibleItems(): (v: seq<T>)
      reads this
      requires Valid()
      ensures |v| <= itemsPerPage
      ensures forall j :: 0 <= j < |v| ==>
        page * itemsPerPage + j < |items| && v[j] == items[page * itemsPerPage + j]
    {
      Visible(items, page, itemsPerPage)
    }

    /** `goNext`: forward one page unless on the last. */
    method GoNext()
      requires Valid()
      modifies this
      ensures Valid()
      ensures page == if old(page) < TotalPages(|items|, itemsPerPage) - 1 then old(page) + 1 else old(page)
    {
      if page < TotalPages(|items|, itemsPerPage) - 1 {
        page := page + 1;
      }
    }

    /** `goPrev`: back one page unless on the first. */
    method GoPrev()
      requires Valid()
      modifies this
      ensures Valid()
      ensures page == if old(page) > 0 then old(page) - 1 else 0
    {
      if page > 0 {
        page := page - 1;
      }
    }
  }

  // ---------------------------------------------------------------------
  // The stamp list

  /** The KidPix sprite numbers offered as stamps: 1 to 18, then 21 to 109. */
  function StampNumbers(): (ids: seq<int>)
    ensures |ids| == 107
    ensures forall i :: 0 <= i < |ids| ==> 1 <= ids[i] <= 109 && ids[i] != 19 && ids[i] != 20
    ensures forall i, j :: 0 <= i < j < |ids| ==> ids[i] < ids[j]
  {
    seq(18, i => i + 1) + seq(89, i => i + 21)
  }

  /** Every sprite from 1 to 109 but 19 and 20 is offered. */
  lemma StampNumbersComplete(n: int)
    requires 1 <= n <= 109 && n != 19 && n != 20
    ensures n in StampNumbers()
  {
    var ids := StampNumbers();
    if n <= 18 {
      assert ids[n - 1] == n;
    } else {
      assert ids[n - 3] == n;
    }
  }

  // ---------------------------------------------------------------------
  // Tool buttons and drawers

  /** The drawer a tool button leaves open. */
  function DrawerAfterClick(drawer: Option<string>, toolId: string, hasDrawer: bool): (next: Option<string>)
    ensures !hasDrawer ==> next == None
    ensures hasDrawer ==> (next == None <==> drawer == Some(toolId))
    ensures next.Some? ==> next == Some(toolId)
  {
    if hasDrawer then (if drawer == Some(toolId) then None else Some(toolId)) else None
  }

  /** Clicking the same drawer tool twice restores the drawer exactly when
      none was open or that tool's was. */
  lemma ClickTwice(drawer: Option<string>, toolId: string)
    ensures DrawerAfterClick(DrawerAfterClick(drawer, toolId, true), toolId, true) == drawer
      <==> drawer == None || drawer == Some(toolId)
  {
  }

  datatype Tool = Tool(id: string, hasDrawer: bool)

  /** The sidebar's tool buttons. */
  const Tools: seq<Tool> := [
    Tool("brush", true), Tool("eraser", true), Tool("background", true), Tool("fill", true),
    Tool("stamp", true), Tool("text", true), Tool("images", true), Tool("shapes", true),
    Tool("wacky", true)]

  // ---------------------------------------------------------------------
  // Custom text

  /** The characters `String.prototype.trim` removes: white space and line
      terminators. */
  predicate IsSpace(c: char)
  {
    c in {'\U{9}', '\U{A}', '\U{B}', '\U{C}', '\U{D}', '\U{20}', '\U{A0}', '\U{1680}',
          '\U{2000}', '\U{2001}', '\U{2002}', '\U{2003}', '\U{2004}', '\U{2005}', '\U{2006}', '\U{2007}',
          '\U{2008}', '\U{2009}', '\U{200A}', '\U{2028}', '\U{2029}', '\U{202F}', '\U{205F}', '\U{3000}',
          '\U{FEFF}'}
  }

  function TrimStart(s: string): (r: string)
    ensures |r| <= |s| && r == s[|s| - |r|..]
    ensures forall i :: 0 <= i < |s| - |r| ==> IsSpace(s[i])
    ensures r == [] || !IsSpace(r[0])
    decreases |s|
  {
    if |s| > 0 && IsSpace(s[0]) then TrimStart(s[1..]) else s
  }

  function TrimEnd(s: string): (r: string)
    ensures |r| <= |s| && r == s[..|r|]
    ensures forall i :: |r| <= i < |s| ==> IsSpace(s[i])
    ensures r == [] || !IsSpace(r[|r| - 1])
    decreases |s|
  {
    if |s| > 0 && IsSpace(s[|s| - 1]) then TrimEnd(s[..|s| - 1]) else s
  }

  /** `trim()`: the text with its leading and trailing white space removed. */
  function Trim(s: string): string
  {
    TrimEnd(TrimStart(s))
  }

  /** The trimmed text is the middle of the input, everything cut away is
      white space, and it neither starts nor ends with white space. */
  lemma TrimCutsOnlySpace(s: string)
    ensures var a := |s| - |TrimStart(s)|;
      a + |Trim(s)| <= |s| && Trim(s) == s[a..a + |Trim(s)|] &&
      (forall i :: 0 <= i < a ==> IsSpace(s[i])) &&
      (forall i :: a + |Trim(s)| <= i < |s| ==> IsSpace(s[i]))
    ensures Trim(s) == [] || (!IsSpace(Trim(s)[0]) && !IsSpace(Trim(s)[|Trim(s)| - 1]))
  {
    var u := TrimStart(s);
    var t := TrimEnd(u);
    assert Trim(s) == t;
    var a := |s| - |u|;
    SliceOfSuffix(s, a, |t|);
    forall i | a + |t| <= i < |s|
      ensures IsSpace(s[i])
    {
      assert s[i] == u[i - a];
    }
    if t != [] {
      assert t[0] == u[0];
    }
  }

  lemma SliceOfSuffix<T>(s: seq<T>, a: nat, n: nat)
    requires a + n <= |s|
    ensures s[a..][..n] == s[a..a + n]
  {
  }

  /** The text is added only when something other than white space was typed. */
  lemma TrimEmptyIffBlank(s: string)
    ensures Trim(s) == [] <==> forall i :: 0 <= i < |s| ==> IsSpace(s[i])
  {
    var u := TrimStart(s);
    if u != [] {
      assert s[|s| - |u|] == u[0];
      assert TrimEnd(u) != [] by {
        if TrimEnd(u) == [] {
          assert false;
        }
      }
    }
  }

  /** Trimming twice is trimming once. */
  lemma TrimIdempotent(s: string)
    ensures Trim(Trim(s)) == Trim(s)
  {
    var t := Trim(s);
    TrimCutsOnlySpace(s);
    if t != [] {
      assert TrimStart(t) == t;
      assert TrimEnd(t) == t;
    }
  }

  // ---------------------------------------------------------------------
  // The background preview

  datatype Preview = DefaultIcon | ImagePreview | GradientPreview | ColorPreview

  predicate StartsWith(s: string, prefix: string)
  {
    |prefix| <= |s| && s[..|prefix|] == prefix
  }

  /** `renderBackgroundPreview`: the palette icon for no background or
      white, a thumbnail for a picture path or data URL, a swatch drawn
      with the gradient, and otherwise a color swatch. */
  function BackgroundPreview(background: string): (p: Preview)
    ensures p == DefaultIcon <==> background == "" || background == "#ffffff"
    ensures p == ColorPreview ==> background != "" && background[0] != '/'
  {
    if background == "" || background == "#ffffff" then DefaultIcon
    else if StartsWith(background, "/") || StartsWith(background, "data:") then ImagePreview
    else if StartsWith(background, "linear-gradient") then GradientPreview
    else ColorPreview
  }

  datatype BackgroundKind = ColorKind | GradientKind | ImageKind

  /** The preview a background of a given kind should get. */
  function PreviewOf(kind: BackgroundKind): Preview
  {
    match kind
    case ColorKind => ColorPreview
    case GradientKind => GradientPreview
    case ImageKind => ImagePreview
  }

  /** How the offered backgrounds are written: a hex color, a CSS gradient,
      or a picture under `/backgrounds/`. */
  function Hex(digits: string): string { "#" + digits }
  function Gradient(arguments: string): string { "linear-gradient" + arguments }
  function Picture(file: string): string { "/backgrounds/" + file }

  /** The offered backgrounds, as the arguments of those three forms. */
  const ColorDigits: seq<string> := [
    "ffffff", "fff8dc", "d8b4fe", "a7f3d0", "fda4af", "fed7aa",
    "7dd3fc", "fbb6ce", "fca5a5", "c4b5fd", "fef08a", "67e8f9"]

  const GradientArguments: seq<string> := [
    "(135deg, #fda4af 0%, #fed7aa 50%, #fef08a 100%)",
    "(135deg, #67e8f9 0%, #7dd3fc 50%, #c4b5fd 100%)",
    "(135deg, #fbb6ce 0%, #d8b4fe 50%, #7dd3fc 100%)",
    "(135deg, #a7f3d0 0%, #67e8f9 50%, #c4b5fd 100%)",
    "(180deg, #fbb6ce 0%, #fda4af 50%, #d8b4fe 100%)",
    "(180deg, #c4b5fd 0%, #fbb6ce 100%)",
    "(135deg, #fef08a 0%, #a7f3d0 50%, #67e8f9 100%)",
    "(180deg, #f472b6 0%, #fbb6ce 50%, #fda4af 100%)"]

  const PictureFiles: seq<string> := [
    "Aquarium.png", "barbie.png", "Cake-Maker.png", "castle.png", "Checkered.png", "Glam.png",
    "Living-Room.png", "Party.png",
    "PC-_-Computer---Hello-Kitty-Big-Fun-Deluxe---Activities---Big-Fun-Storymaking-(Mode-Select)-1.png",
    "PC-_-Computer---Hello-Kitty-Big-Fun-Deluxe---Miscellaneous---Shared-Elements-1.png",
    "Pick-Heart.png", "Pink-Heart-Clouds.png", "Purple.png", "Rainbow-Cloud.png", "rainbow.png",
    "Rosey-Wallpaper.png", "Salon.png", "Twilight.png"]

  /** Any hex color but white shows a color swatch. */
  lemma HexPreviewsAsColor(digits: string)
    requires digits != "ffffff"
    ensures BackgroundPreview(Hex(digits)) == ColorPreview
  {
    var v := Hex(digits);
    assert v[0] == '#' && v[1..] == digits;
    assert v != "#ffffff" by {
      assert "#ffffff"[1..] == "ffffff";
    }
    assert !StartsWith(v, "/") && !StartsWith(v, "data:") && !StartsWith(v, "linear-gradient") by {
      assert "data:"[0] != '#' && "linear-gradient"[0] != '#';
    }
  }

  /** Any gradient shows a gradient swatch. */
  lemma GradientPreviewsAsGradient(arguments: string)
    ensures BackgroundPreview(Gradient(arguments)) == GradientPreview
  {
    var v := Gradient(arguments);
    assert v[0] == 'l' && "#ffffff"[0] == '#';
    assert v[..15] == "linear-gradient";
    assert !StartsWith(v, "data:") by {
      assert "data:"[0] != 'l';
    }
  }

  /** Any picture path shows a thumbnail. */
  lemma PicturePreviewsAsImage(file: string)
    ensures BackgroundPreview(Picture(file)) == ImagePreview
  {
    var v := Picture(file);
    assert v[0] == '/' && "#ffffff"[0] == '#';
    assert v[..1] == "/";
  }

  /** The offered colors show a swatch, all but white, which is listed first
      and shows the palette icon. */
  lemma OfferedColorsPreviewAsColors(i: nat)
    requires i < |ColorDigits|
    ensures BackgroundPreview(Hex(ColorDigits[i])) == if i == 0 then DefaultIcon else PreviewOf(ColorKind)
  {
    if i > 0 {
      assert ColorDigits[i] in ColorDigits[1..];
      assert "ffffff" !in ColorDigits[1..];
      HexPreviewsAsColor(ColorDigits[i]);
    }
  }

  /** The offered gradients and pictures preview as what they are listed as. */
  lemma OfferedGradientsAndPicturesPreviewByKind()
    ensures forall i :: 0 <= i < |GradientArguments| ==>
      BackgroundPreview(Gradient(GradientArguments[i])) == PreviewOf(GradientKind)
    ensures forall i :: 0 <= i < |PictureFiles| ==>
      BackgroundPreview(Picture(PictureFiles[i])) == PreviewOf(ImageKind)
  {
    forall arguments
      ensures BackgroundPreview(Gradient(arguments)) == GradientPreview
    {
      GradientPreviewsAsGradient(arguments);
    }
    forall file
      ensures BackgroundPreview(Picture(file)) == ImagePreview
    {
      PicturePreviewsAsImage(file);
    }
  }

  /** An uploaded background, a data URL, previews as a picture. */
  lemma UploadPreviewsAsImage(dataUrl: string)
    requires StartsWith(dataUrl, "data:")
    ensures BackgroundPreview(dataUrl) == ImagePreview
  {
    assert dataUrl[0] == 'd' && "#ffffff"[0] == '#';
  }

  // ---------------------------------------------------------------------
  // The sidebar's own state

  class ToolSidebar {
    var currentTool: string
    var activeDrawer: Option<string>
    var customTextInput: string
    var addedTexts: seq<string>

    constructor(tool: string)
      ensures currentTool == tool && activeDrawer == None && customTextInput == "" && addedTexts == []
    {
      currentTool := tool;
      activeDrawer := None;
      customTextInput := "";
      addedTexts := [];
    }

    /** `handleToolClick`: the tool is always set; a drawer tool toggles its
        drawer; any other tool closes the drawer and, on a phone, the sheet. */
    method ToolClick(toolId: string, hasDrawer: bool, isMobile: bool, hasOnClose: bool) returns (closesSheet: bool)
      modifies this
      ensures currentTool == toolId
      ensures activeDrawer == DrawerAfterClick(old(activeDrawer), toolId, hasDrawer)
      ensures closesSheet <==> !hasDrawer && isMobile && hasOnClose
      ensures customTextInput == old(customTextInput) && addedTexts == old(addedTexts)
    {
      currentTool := toolId;
      closesSheet := false;
      if hasDrawer {
        activeDrawer := if activeDrawer == Some(toolId) then None else Some(toolId);
      } else {
        activeDrawer := None;
        if isMobile && hasOnClose {
          closesSheet := true;
        }
      }
    }

    /** The `closeDrawer` effect: a request closes an open drawer and tells
        the page; with no drawer open nothing happens. */
    method CloseDrawerRequest(closeDrawer: bool) returns (notifies: bool)
      modifies this
      ensures notifies <==> closeDrawer && old(activeDrawer).Some?
      ensures activeDrawer == if notifies then None else old(activeDrawer)
      ensures currentTool == old(currentTool) && customTextInput == old(customTextInput)
      ensures addedTexts == old(addedTexts)
    {
      notifies := false;
      if closeDrawer && activeDrawer.Some? {
        activeDrawer := None;
        notifies := true;
      }
    }

    method TypeText(text: string)
      modifies this
      ensures customTextInput == text
      ensures currentTool == old(currentTool) && activeDrawer == old(activeDrawer) && addedTexts == old(addedTexts)
    {
      customTextInput := text;
    }

    /** The Add button and the Enter key: the trimmed text is added and the
        box cleared, unless only white space was typed. */
    method AddCustomText() returns (added: Option<string>)
      modifies this
      ensures added == if Trim(old(customTextInput)) == "" then None else Some(Trim(old(customTextInput)))
      ensures addedTexts == old(addedTexts) + (if added.Some? then [added.value] else [])
      ensures customTextInput == if added.Some? then "" else old(customTextInput)
      ensures currentTool == old(currentTool) && activeDrawer == old(activeDrawer)
    {
      var text := Trim(customTextInput);
      if text != "" {
        addedTexts := addedTexts + [text];
        customTextInput := "";
        added := Some(text);
      } else {
        added := None;
      }
    }
  }
}
