/**
 * The mobile toolbar: which bottom panel is open, and how the tabs, the
 * tool buttons and the pickers move between panels while setting the
 * parent's tool, stamp, shape, color and brush state.
 */
module Mobile {

  datatype Panel = NoPanel | Tools | Colors | Options | Stamps | Shapes | BrushOptions | EraserOptions

  /** The tabs that toggle a panel of their own. */
  predicate IsTab(p: Panel)
  {
    p in {Tools, Colors, Options, Stamps, Shapes}
  }

  /** A tab press: the tab's panel closes if it is open, opens otherwise. */
  function Toggled(panel: Panel, tab: Panel): (next: Panel)
    requires IsTab(tab)
    ensures next == NoPanel <==> panel == tab
    ensures next != NoPanel ==> next == tab
  {
    if panel == tab then NoPanel else tab
  }

  /** Pressing the same tab twice gets back to where it started exactly when
      the panels were closed or already on that tab. */
  lemma ToggleTwice(panel: Panel, tab: Panel)
    requires IsTab(tab)
    ensures Toggled(Toggled(panel, tab), tab) == panel <==> panel == NoPanel || panel == tab
  {
  }

  /** The buttons of the Draw panel. */
  const PanelTools: seq<string> := ["brush", "eraser", "fill", "move"]

  /** Where a Draw-panel button leaves the panels: the brush and eraser open
      their options, the others close the panel. */
  function AfterToolPick(tool: string): (next: Panel)
    requires tool in PanelTools
    ensures next == BrushOptions <==> tool == "brush"
    ensures next == EraserOptions <==> tool == "eraser"
    ensures next == NoPanel <==> tool == "fill" || tool == "move"
  {
    if tool == "brush" then BrushOptions else if tool == "eraser" then EraserOptions else NoPanel
  }

  /** The parent state the toolbar reads and sets. */
  class MobileToolbar {
    var mobilePanel: Panel
    var currentTool: string
    var currentColor: string
    var currentStamp: string
    var currentShape: string
    var brushSize: int
    var brushShape: string
    var eraserSize: int
    var eraserShape: string
    var currentFont: string
    var addedTexts: seq<string>

    /** An options panel is only ever open for its own tool. */
    predicate Valid()
      reads this
    {
      (mobilePanel == BrushOptions ==> currentTool == "brush") &&
      (mobilePanel == EraserOptions ==> currentTool == "eraser")
    }

    /** The page's initial state: brush tool, pink, panels closed. */
    constructor()
      ensures Valid() && mobilePanel == NoPanel && currentTool == "brush" && currentColor == "#ff1493"
      ensures currentStamp == "/stamps/kidpix-spritesheet-0-1.svg" && currentShape == "heart"
      ensures brushSize == 5 && brushShape == "round" && eraserSize == 10 && eraserShape == "round"
      ensures currentFont == "pixel" && addedTexts == []
    {
      mobilePanel := NoPanel;
      currentTool := "brush";
      currentColor := "#ff1493";
      currentStamp := "/stamps/kidpix-spritesheet-0-1.svg";
      currentShape := "heart";
      brushSize := 5;
      brushShape := "round";
      eraserSize := 10;
      eraserShape := "round";
      currentFont := "pixel";
      addedTexts := [];
    }

    /** The Draw, Stamps, Shapes, More and color-swatch tabs. */
    method PressTab(tab: Panel)
      requires Valid() && IsTab(tab)
      modifies this`mobilePanel
      ensures Valid()
      ensures mobilePanel == Toggled(old(mobilePanel), tab)
      ensures currentTool == old(currentTool)
    {
      mobilePanel := if mobilePanel == tab then NoPanel else tab;
    }

    /** The Text tab: text tool, panels closed. */
    method PressTextTab()
      requires Valid()
      modifies this`currentTool, this`mobilePanel
      ensures Valid() && currentTool == "text" && mobilePanel == NoPanel
    {
      currentTool := "text";
      mobilePanel := NoPanel;
    }

    /** A Draw-panel button: the tool is always set; brush and eraser open
        their options, fill and move close the panel. */
    method PickTool(tool: string)
      requires Valid() && tool in PanelTools
      modifies this`currentTool, this`mobilePanel
      ensures Valid()
      ensures currentTool == tool && mobilePanel == AfterToolPick(tool)
    {
      currentTool := tool;
      if tool == "brush" || tool == "eraser" {
        mobilePanel := if tool == "brush" then BrushOptions else EraserOptions;
      } else {
        mobilePanel := NoPanel;
      }
    }

    method PickStamp(stamp: string)
      requires Valid()
      modifies this`currentStamp, this`currentTool, this`mobilePanel
      ensures Valid()
      ensures currentStamp == stamp && currentTool == "stamp" && mobilePanel == NoPanel
    {
      currentStamp := stamp;
      currentTool := "stamp";
      mobilePanel := NoPanel;
    }

    method PickShape(shape: string)
      requires Valid()
      modifies this`currentShape, this`currentTool, this`mobilePanel
      ensures Valid()
      ensures currentShape == shape && currentTool == "shapes" && mobilePanel == NoPanel
    {
      currentShape := shape;
      currentTool := "shapes";
      mobilePanel := NoPanel;
    }

    /** A color swatch: sets the color, closes the panel, keeps the tool. */
    method PickColor(color: string)
      requires Valid()
      modifies this`currentColor, this`mobilePanel
      ensures Valid()
      ensures currentColor == color && mobilePanel == NoPanel && currentTool == old(currentTool)
    {
      currentColor := color;
      mobilePanel := NoPanel;
    }

    /** A brush size (in the color panel or the brush options): the panel
        stays as it is. */
    method PickBrushSize(size: int)
      requires Valid()
      modifies this`brushSize
      ensures Valid()
      ensures brushSize == size && mobilePanel == old(mobilePanel) && currentTool == old(currentTool)
    {
      brushSize := size;
    }

    method PickBrushShape(shape: string)
      requires Valid()
      modifies this`brushShape
      ensures Valid()
      ensures brushShape == shape && mobilePanel == old(mobilePanel) && currentTool == old(currentTool)
    {
      brushShape := shape;
    }

    method PickEraserSize(size: int)
      requires Valid()
      modifies this`eraserSize
      ensures Valid()
      ensures eraserSize == size && mobilePanel == old(mobilePanel) && currentTool == old(currentTool)
    {
      eraserSize := size;
    }

    method PickEraserShape(shape: string)
      requires Valid()
      modifies this`eraserShape
      ensures Valid()
      ensures eraserShape == shape && mobilePanel == old(mobilePanel) && currentTool == old(currentTool)
    {
      eraserShape := shape;
    }

    method PickFont(font: string)
      requires Valid()
      modifies this`currentFont
      ensures Valid()
      ensures currentFont == font && mobilePanel == old(mobilePanel) && currentTool == old(currentTool)
    {
      currentFont := font;
    }

    /** A special-text button: the text is added and the panel closes. */
    method AddSpecialText(text: string)
      requires Valid()
      modifies this`addedTexts, this`mobilePanel
      ensures Valid()
      ensures addedTexts == old(addedTexts) + [text] && mobilePanel == NoPanel
      ensures currentTool == old(currentTool)
    {
      addedTexts := addedTexts + [text];
      mobilePanel := NoPanel;
    }

    /** The backdrop and the drag handle. */
    method ClosePanel()
      requires Valid()
      modifies this`mobilePanel
      ensures Valid() && mobilePanel == NoPanel && currentTool == old(currentTool)
    {
      mobilePanel := NoPanel;
    }
  }
}
