# Birthday card maker: a Dafny model of its state logic

The app is a greeting-card drawing page built on a Fabric.js canvas. This
project models the parts of it that follow rules and can be stated
precisely, one Dafny module per source file:

- **History** (`history.dfy`, app/page.tsx) covers the undo/redo history.
  - It keeps at most 50 opaque scene snapshots, a cursor and a
    re-entrancy flag.
  - Saving drops the redo branch, appends the snapshot and evicts the
    oldest entry.
  - Undo and redo restore a snapshot asynchronously: they begin, then
    complete with success or failure.
- **Fonts** (`fonts.dfy`) covers `getFontFamily`, shared by the page and
  the canvas.
- **CanvasArea** (`canvas.dfy`, components/canvas-area.tsx) models the
  canvas as an ordered list of scene objects (index 0 at the back) with
  the flags the app uses.
  - Fill keeps at most one background rect, always at the back.
  - The tool-mode effect sets drawing mode, brush and object
    interactivity.
  - It also covers the brush factory and the mirror and scramble effects.
- **Patterns** (`patterns.dfy`) covers the integer loops that draw the
  24×24 fill tiles, modelled as lists of drawing commands.
- **Draws** (`draws.dfy`, components/top-bar.tsx) covers the random
  picks: `randomPick`, `pickUnique`, the five layouts and the draws one run
  can make.
  - All randomness is an input: a real in [0, 1) per `Math.random()` and a
    permutation per sort-based shuffle.
- **Composer** (`composer.dfy`, components/top-bar.tsx) covers the random
  card and the screenshot check.
  - Image-load failures are an input: for each group (balloons, layout,
    stamps) the positions whose `addImage` load fails, and whether the
    cake's load fails.
- **Sidebar** (`sidebar.dfy`, components/tool-sidebar.tsx) covers:
  - the paginated pickers;
  - the KidPix stamp list;
  - tool buttons and drawers;
  - the custom-text box;
  - the background preview.
- **Tour** (`tour.dfy`, components/guided-tour.tsx) covers the step
  counter of the guided tour and its keyboard dispatch.
- **Mobile** (`mobile.dfy`, components/mobile-toolbar.tsx) covers the
  bottom panel and the tool/stamp/shape/color state it sets.
- **Countdown** (`countdown.dfy`, components/countdown.tsx) covers the
  day/hour/minute/second split of a millisecond difference.

The code is modelled in its own form:
- State that the source mutates (history, canvas, pickers, tour, sidebar,
  mobile toolbar, countdown) is a class whose methods state the new state.
  The mobile toolbar's handlers and the canvas primitives used by the
  random card name in their frame only the fields they set, so every other
  field is kept.
- The source's loops (pattern tiles, `forEachObject`, balloon/layout/stamp
  placement) are `while` loops with invariants.
- Pure helpers are functions with lemmas.

## Model

| member | source | states |
|---|---|---|
| History.AfterSave | app/page.tsx:78-80 | A save keeps entries 0..cursor, drops the redo branch and ends with the new snapshot. Its length is min(cursor + 2, 50), and every earlier entry keeps its relative order. |
| History.AfterSaveAtEnd | app/page.tsx:78-80 | Saving with the cursor on the newest entry is appending, then keeping the newest 50. |
| History.Replay | app/page.tsx:78-80 | However many saves are made, the history is never empty again and never exceeds 50 entries. |
| History.ReplayKeepsNewest | app/page.tsx:78-80 | First-in first-out eviction: after any sequence of saves, the history is exactly the newest 50 snapshots (or all of them), oldest first. |
| History.HistoryManager.constructor | app/page.tsx:42-46 | The history starts empty, with cursor -1 and no restore in flight. |
| History.HistoryManager.SaveToHistory | app/page.tsx:67-87 | A save during a restore, or without a serialized scene, changes nothing. Otherwise the history becomes `AfterSave` of the old one, the cursor moves to the last entry, and redo is disabled. |
| History.HistoryManager.SaveInitial | app/page.tsx:142-158 | The initial snapshot is taken only into an empty history, giving history = [s] and cursor 0. Otherwise nothing changes. |
| History.HistoryManager.BeginUndo | app/page.tsx:89-113 | A restore starts iff the cursor is > 0, the canvas exists and no restore is in flight. It loads entry cursor−1 and leaves the history and cursor unchanged until it completes. Otherwise nothing changes. |
| History.HistoryManager.BeginRedo | app/page.tsx:115-139 | A restore starts iff the cursor is below the last index, the canvas exists and no restore is in flight. It loads entry cursor+1; otherwise nothing changes. |
| History.HistoryManager.CompleteRestore | app/page.tsx:102-110 | Success moves the cursor to the restored entry (exactly ±1). Failure leaves the cursor unchanged. Both clear the flag, and neither touches the history list. |
| History.UndoThenRedo | app/page.tsx:89-139 | A successful undo followed by a successful redo, with no save between them, restores the cursor and the history. |
| History.WrittenSave | app/page.tsx:67-87 | The save as written: ignored while the flag is set. Otherwise the history becomes `AfterSave`, the cursor moves to its last entry, and the flag and pending restores are unchanged. |
| History.WrittenBeginUndo | app/page.tsx:89-101 | The undo as written: it starts a restore whenever the cursor is > 0, whether or not one is already in flight. It queues the target index, sets the flag and leaves the history and cursor unchanged. |
| History.WrittenComplete | app/page.tsx:102-110 | The settlement of one restore as written: it clears the shared flag even if other restores are pending. It removes exactly the k-th pending restore, keeps the history, and moves the cursor to its target only on success. |
| History.WrittenGuardLeaks | app/page.tsx:69 | Two quick undos, then the first restore settles. The flag is cleared, so a save is recorded while the second restore is still pending. |
| Fonts.FontFamily | app/page.tsx:161-173 | Bubble, script and narrow map to their own families; every other id maps to Pixelify Sans (both directions). |
| Patterns.HorizontalStripes | components/canvas-area.tsx:1027-1031 | The loop draws three 4-pixel bands at y = 2, 10, 18. |
| Patterns.VerticalStripes | components/canvas-area.tsx:1032-1036 | The loop draws three 4-pixel bands at x = 2, 10, 18. |
| Patterns.DiagonalStripes | components/canvas-area.tsx:1037-1045 | The loop from −24 to below 48 in steps of 8 draws exactly nine lines, from (−24+8k, 0) to (8k, 24). |
| Patterns.CheckerboardColumns | components/canvas-area.tsx:1054-1061 | The three columns of the nested loop paint cells (0,0), (0,16), (8,8), (16,0) and (16,16), in that order. |
| Patterns.CheckerboardCells | components/canvas-area.tsx:1054-1061 | The nested loop paints exactly those five 8×8 cells, column by column. |
| Patterns.CheckerboardPaintsEvenCells | components/canvas-area.tsx:1057 | A cell is painted iff it is on the 8-pixel grid and x/8 + y/8 is even: 5 of the 9 cells. |
| Patterns.ZigzagRow | components/canvas-area.tsx:1076-1089 | One zigzag row starts at (0, bottom) and alternates peaks at x+3 and troughs at x+6 for x = 0, 6, 12, 18, ending at (24, bottom). |
| Patterns.CreatePatternCanvas | components/canvas-area.tsx:1006-1105 | Returns no tile iff the pattern is solid or there is no 2D context. Otherwise the tile satisfies `PatternTile` for the color and pattern: a white square followed by that pattern's marks. These are the stripes, dots, checkerboard cells, heart and star glyphs and confetti squares at their positions, and two zigzag polylines of width 3 with their peaks and troughs. |
| Patterns.PatternTileExact | components/canvas-area.tsx:1006-1105 | The pattern and the color determine the tile: two tiles that both fit `PatternTile` for them are equal. |
| CanvasArea.CreateBrush | components/canvas-area.tsx:676-695 | Spray gives a circle brush of width 3×size. Round and square give a pencil brush of width size, with cap/join round/round or square/miter. The color is always the one given. |
| CanvasArea.EraserColor | components/canvas-area.tsx:708 | The eraser paints with the background color, or white when it is unset; never the empty color. |
| CanvasArea.FirstBackground | components/canvas-area.tsx:1112 | `find(isBackgroundRect)` finds nothing iff no object is tagged. Otherwise it returns the first tagged position. |
| CanvasArea.WithoutFirstBackground | components/canvas-area.tsx:1112-1115 | Removing the found rect leaves the list unchanged when there is none and removes exactly one object otherwise. |
| CanvasArea.ForegroundAppend | components/canvas-area.tsx:498 | Filtering out background rects distributes over concatenation. |
| CanvasArea.BackgroundCountAppend | components/canvas-area.tsx:1112 | The tagged count of a concatenation is the sum of the counts. |
| CanvasArea.NoBackgroundCountsZero | components/canvas-area.tsx:1112 | A list without tags counts zero, and its foreground is itself. |
| CanvasArea.RemovalKeepsForeground | components/canvas-area.tsx:1112-1115 | Removing the background rect takes out exactly one tagged object when there is one. It never touches the untagged objects or their order. |
| CanvasArea.BackgroundRect | components/canvas-area.tsx:1127-1140 | The pattern rect is tagged, inert, at the origin, and as wide and as high as the canvas (800 and 600 when unset). |
| CanvasArea.FillLeavesOneBackground | components/canvas-area.tsx:1112-1143 | From a scene with at most one background rect, a fill leaves exactly one rect, at index 0, in front of the same foreground. |
| CanvasArea.ZeroCountHasNoBackground | components/canvas-area.tsx:1112 | A count of zero means no object is tagged. |
| CanvasArea.RemovalKeepsBackgroundAtBack | components/canvas-area.tsx:1112-1115 | When the only tag is at the back, removing it leaves no tag at all. |
| CanvasArea.InteractionKeepsScene | components/canvas-area.tsx:715-727 | `forEachObject` sets both flags of every object and changes no kind, tag or position. |
| CanvasArea.MirrorTwiceRestores | components/canvas-area.tsx:496-509 | The mirror effect is an involution: mirroring twice restores every object. |
| CanvasArea.MirrorKeepsBackground | components/canvas-area.tsx:498-506 | Mirror leaves the background rect untouched. It changes only `left` and `flipX` of the other objects, and flips every one of them. |
| CanvasArea.ScatterStaysInside | components/canvas-area.tsx:517-518 | `r·(extent−100)+50` with r in [0,1) stays 50 pixels inside an extent of at least 100. |
| CanvasArea.ScrambleStaysInside | components/canvas-area.tsx:510-524 | A scrambled object lands 50 pixels inside the canvas at an angle in [0, 360), and nothing else about it changes. |
| CanvasArea.EffectsKeepTags | components/canvas-area.tsx:498-512 | Mirror and scramble never tag or untag an object. |
| CanvasArea.Canvas.constructor | components/canvas-area.tsx:161-172 | The canvas starts white, empty and in drawing mode, with selection on and a pencil brush of the current color and size. |
| CanvasArea.Canvas.Add | components/canvas-area.tsx:1142 | `add` puts the object on top and changes nothing else. |
| CanvasArea.Canvas.SendToBack | components/canvas-area.tsx:1143 | `sendObjectToBack` moves object i to index 0; the others keep their order. |
| CanvasArea.Canvas.BringToFront | components/top-bar.tsx:360 | `bringObjectToFront` moves object i to the top; the others keep their order. |
| CanvasArea.Canvas.Clear | components/top-bar.tsx:207 | `clear` removes every object and the background color. |
| CanvasArea.Canvas.FillCanvas | components/canvas-area.tsx:1107-1150 | Removes the old rect. Solid sets the color and adds nothing. A pattern sets white and puts a pattern rect at index 0 before the untouched rest (nothing is added without a 2D context). That rect's tile is the `PatternTile` of the chosen color and pattern. At most one rect, always at the back, is preserved. |
| CanvasArea.Canvas.PointerDownFill | components/canvas-area.tsx:194-325 | In drawing mode nothing happens. Otherwise it behaves like the fill, except that the canvas turns white only when the tile could be drawn. The added rect's tile is the `PatternTile` of the current color and pattern. |
| CanvasArea.Canvas.RemoveBackgroundRect | components/canvas-area.tsx:1112-1115 | Removes the found rect and keeps the foreground; a valid scene is left with no tag. |
| CanvasArea.Canvas.AddBackgroundRect | components/canvas-area.tsx:1140-1143 | The new rect goes to index 0 in front of the unchanged list, so an untagged scene becomes valid. |
| CanvasArea.Canvas.ApplyToolMode | components/canvas-area.tsx:698-728 | Drawing mode is on iff the tool is brush or eraser, each with its own brush (the eraser uses the background color). `move` makes all objects interactive, other tools make them inert, and brush/eraser leave the flags. |
| CanvasArea.Canvas.SetInteraction | components/canvas-area.tsx:717-726 | The loop sets both flags of every object and nothing else. |
| CanvasArea.Canvas.Mirror | components/canvas-area.tsx:496-509 | The loop mirrors every untagged object about the canvas centre line. |
| CanvasArea.Canvas.Scramble | components/canvas-area.tsx:510-524 | The loop moves every untagged object by its own random draws. |
| Draws.PickIndex | components/top-bar.tsx:193 | `floor(r·n)` with r in [0,1) is a valid position, the floor of r·n. |
| Draws.RandomPick | components/top-bar.tsx:193 | `randomPick` returns an element of the list, the one at `floor(r·n)`. |
| Draws.PickUnique | components/top-bar.tsx:195-198 | `pickUnique` returns min(count, n) elements, each taken from the list at the shuffled position. |
| Draws.PickUniqueDistinct | components/top-bar.tsx:195-198 | From a list without duplicates, `pickUnique` never returns the same element twice. |
| Draws.CharacterSlotsFitFour | components/top-bar.tsx:236-320 | The layouts use 2, 2, 3, 2 and 4 character slots, never more than the four characters drawn, so `getNextCharacter` never wraps. |
| Draws.CharactersBeforeGrows | components/top-bar.tsx:238 | The `characterIndex` counter never decreases and strictly increases past every character slot. |
| Draws.StampCount | components/top-bar.tsx:322 | `8 + floor(r·3)` is 8, 9 or 10. |
| Composer.BalloonPlan | components/top-bar.tsx:274-290 | Exactly ten balloons are planned. |
| Composer.BalloonsPlaced | components/top-bar.tsx:268-290 | Every planned balloon is an untagged balloon picture, neither a character nor a stamp. Balloon i sits at base position i mod 11 plus a jitter of up to ±5% of the canvas. |
| Composer.BackgroundImage | components/top-bar.tsx:214-232 | The chosen background is tagged, inert, and from the background list. |
| Composer.SlotObject | components/top-bar.tsx:292-320 | A character slot places the next character; any other slot places a random decoration. |
| Composer.TemplatePlan | components/top-bar.tsx:292-320 | The layout plans one image per slot. |
| Composer.TemplatePlaced | components/top-bar.tsx:292-320 | Slot j of the layout plans `SlotObject` j, in slot order. None of the images is tagged and none is a stamp. |
| Composer.StampPlan | components/top-bar.tsx:322-328 | There are `StampCount` stamps: eight, nine or ten. |
| Composer.StampsPlaced | components/top-bar.tsx:322-328 | Stamp i is the i-th of the shuffled stamps. None is tagged and none is a character. |
| Composer.CakeObject | components/top-bar.tsx:330-331 | One cake from the cake list, at the centre of the food line. |
| Composer.CaptionObject | components/top-bar.tsx:333-358 | The caption text and font come from their lists, and its color from the chosen background's `textColors`. Its stroke width is 1 exactly when the color is white, 0 otherwise. |
| Composer.Kept | components/top-bar.tsx:240-266 | A failed image load places nothing and the run goes on. What is kept is never longer than the plan. |
| Composer.KeptAppend | components/top-bar.tsx:240-266 | The images kept from two consecutive parts of a plan are those kept from each part, positions counted on. |
| Composer.KeptFromPlan | components/top-bar.tsx:240-266 | Every image kept was planned. |
| Composer.KeptKeepsNoRepeat | components/top-bar.tsx:240-266 | Dropping failed loads never creates a repeat. |
| Composer.KeptLacks | components/top-bar.tsx:240-266 | Dropping failed loads never brings in a new library or a background tag. |
| Composer.PlacementsKeepOrder | components/top-bar.tsx:240-331 | However loads fail, the images between background and caption carry no background tag and no repeat in a library that only one group draws from. |
| Composer.ComposeKeepsOrder | components/top-bar.tsx:230-360 | However loads fail, a composed scene has the background alone at the back, the caption on top, and no repeats in a library that only one group draws from. |
| Composer.TemplateCharactersDistinct | components/top-bar.tsx:236-320 | The layout never places the same character twice. |
| Composer.StampsDistinct | components/top-bar.tsx:322-328 | The stamps placed in one run are pairwise distinct. |
| Composer.DesignHasNoRepeats | components/top-bar.tsx:200-360 | Whatever fails to load, a run has no repeated character, no repeated stamp, the background as the one tagged object at the back, and the caption last. |
| Composer.AddImage | components/top-bar.tsx:240-266 | One `addImage` places the image unless its load fails, and changes nothing else on the canvas. |
| Composer.PlaceBalloons | components/top-bar.tsx:281-290 | The balloon loop places the kept balloons of `BalloonPlan`, in order, and changes nothing else on the canvas. |
| Composer.KeptExtend | components/top-bar.tsx:240-266 | One more `addImage` call extends what a loop has placed to the kept images of one more planned position. |
| Composer.PlaceTemplate | components/top-bar.tsx:292-320 | The layout loop, with its `characterIndex` counter, places the kept images of `TemplatePlan`, and changes nothing else on the canvas. |
| Composer.PlaceStamps | components/top-bar.tsx:322-328 | The stamp loop places the kept stamps of `StampPlan`, and changes nothing else on the canvas. |
| Composer.PlaceImages | components/top-bar.tsx:274-331 | Balloons, layout, stamps and cake are placed in call order: the canvas gains exactly `Placements`, each group losing only its failed loads. Nothing else on the canvas changes. |
| Composer.RandomDesign | components/top-bar.tsx:200-360 | The canvas is cleared and painted white. If the background fails to load, the run stops with an empty canvas. Otherwise the scene is exactly `DesignScene`. The tool mode, selection, brush and size are never touched. |
| Composer.ComposeDesign | components/top-bar.tsx:230-356 | On a cleared canvas, the background is added and sent to the back, the images follow, and the caption is added and brought to the front: the scene is exactly `DesignScene`, and nothing else on the canvas changes. |
| Composer.SaveScreenshot | components/top-bar.tsx:164-191 | No canvas gives nothing. An empty image or `data:,` gives the error alert and no download. Anything else is downloaded as is. |
| Sidebar.TotalPages | components/tool-sidebar.tsx:245 | `ceil(n/k)`: the fewest pages of k that hold n items (0 iff there are no items). |
| Sidebar.Visible | components/tool-sidebar.tsx:246-247 | The slice [page·k, page·k+k) clamped to the list: at most k items, each the item at page·k + j. |
| Sidebar.EveryItemHasAPage | components/tool-sidebar.tsx:245-261 | Item i is shown at position i mod k of page i div k, which the page buttons can reach. |
| Sidebar.PaginatedPicker.constructor | components/tool-sidebar.tsx:227-244 | A picker starts on page 0. |
| Sidebar.PaginatedPicker.VisibleItems | components/tool-sidebar.tsx:246-247 | The current page shows at most k items, from page·k on. |
| Sidebar.PaginatedPicker.GoNext | components/tool-sidebar.tsx:249-254 | Next moves forward only below the last page; the page stays in [0, max(0, pages−1)]. |
| Sidebar.PaginatedPicker.GoPrev | components/tool-sidebar.tsx:256-261 | Back moves backward only above page 0; the page stays in range. |
| Sidebar.StampNumbers | components/tool-sidebar.tsx:561-569 | There are 107 sprite numbers, strictly increasing, all in 1..109, never 19 or 20. |
| Sidebar.StampNumbersComplete | components/tool-sidebar.tsx:561-569 | Every number from 1 to 109 except 19 and 20 is offered. |
| Sidebar.DrawerAfterClick | components/tool-sidebar.tsx:584-587 | A drawer tool closes its own open drawer and otherwise opens its own; a tool without a drawer closes any. |
| Sidebar.ClickTwice | components/tool-sidebar.tsx:584-585 | Clicking the same drawer tool twice restores the drawer iff none or that tool's drawer was open. |
| Sidebar.ToolSidebar.constructor | components/tool-sidebar.tsx:373-381 | No drawer is open and the text box is empty. |
| Sidebar.ToolSidebar.ToolClick | components/tool-sidebar.tsx:580-591 | The tool is always set and the drawer follows `DrawerAfterClick`. The sheet is closed iff the tool has no drawer, on a phone, with `onClose` given. |
| Sidebar.ToolSidebar.CloseDrawerRequest | components/tool-sidebar.tsx:375-380 | A close request closes an open drawer and notifies the page; with no drawer open nothing happens. |
| Sidebar.ToolSidebar.TypeText | components/tool-sidebar.tsx:950 | Typing sets the text box. |
| Sidebar.ToolSidebar.AddCustomText | components/tool-sidebar.tsx:957-972 | Text is added iff the trimmed input is non-empty. The trimmed text is added and the box cleared; otherwise nothing changes. |
| Sidebar.TrimStart | components/tool-sidebar.tsx:957 | Leading trimming cuts only white space, and what remains is a suffix not starting with white space. |
| Sidebar.TrimEnd | components/tool-sidebar.tsx:957 | Trailing trimming cuts only white space, and what remains is a prefix not ending with white space. |
| Sidebar.TrimCutsOnlySpace | components/tool-sidebar.tsx:957-967 | `trim()` returns the middle of the input. Everything cut is white space, and the result neither starts nor ends with it. |
| Sidebar.TrimEmptyIffBlank | components/tool-sidebar.tsx:957-967 | The trimmed text is empty iff every character typed is white space. |
| Sidebar.TrimIdempotent | components/tool-sidebar.tsx:958-968 | Trimming the added text again changes nothing. |
| Sidebar.BackgroundPreview | components/tool-sidebar.tsx:1264-1301 | The palette icon is shown iff there is no background or it is white; a color swatch never shows for a path. |
| Sidebar.HexPreviewsAsColor | components/tool-sidebar.tsx:1264-1301 | Every hex color but white shows a color swatch. |
| Sidebar.GradientPreviewsAsGradient | components/tool-sidebar.tsx:1285-1292 | Every `linear-gradient` shows a gradient swatch. |
| Sidebar.PicturePreviewsAsImage | components/tool-sidebar.tsx:1271-1283 | Every `/backgrounds/` path shows a thumbnail. |
| Sidebar.OfferedColorsPreviewAsColors | components/tool-sidebar.tsx:1264-1301 | Each offered color previews as a color, except white, which shows the palette icon. The offered colors are the list at lines 420-431. |
| Sidebar.OfferedGradientsAndPicturesPreviewByKind | components/tool-sidebar.tsx:1264-1301 | Each offered gradient and picture previews as the type it is listed under. The offered gradients and pictures are the lists at lines 433-459. |
| Sidebar.UploadPreviewsAsImage | components/tool-sidebar.tsx:465-470 | An uploaded background, a `data:` URL, shows a thumbnail. The preview rule is at line 1271. |
| Tour.PositionClasses | components/guided-tour.tsx:164-177 | The four corners get fixed classes, and the centered classes are used iff the position is the centre. |
| Tour.CornersDistinct | components/guided-tour.tsx:164-177 | Different positions get different classes. |
| Tour.NextEffect | components/guided-tour.tsx:116-124 | Next closes iff on the last step, and then rewinds to 0. Otherwise it moves on by one, staying within the 15 steps. |
| Tour.PrevEffect | components/guided-tour.tsx:126-131 | Back moves back by one above step 0 and never closes. |
| Tour.KeyEffect | components/guided-tour.tsx:140-155 | A key closes the tour iff the tour is open and the key is Escape, or ArrowRight/Enter on the last step. A closed tour or any other key changes nothing. |
| Tour.Presses | components/guided-tour.tsx:116-124 | A run of Next presses stays within the steps. |
| Tour.NextWalksToTheEnd | components/guided-tour.tsx:116-124 | From any step, Next reaches the last step without closing, and one more press closes and rewinds. |
| Tour.BackUndoesNext | components/guided-tour.tsx:116-131 | Back undoes Next on every step but the last. |
| Tour.GuidedTour.constructor | components/guided-tour.tsx:114 | The tour starts on step 0. |
| Tour.GuidedTour.BackDisabled | components/guided-tour.tsx:234-238 | Back is disabled iff on the first step. The first step is checked at line 160. |
| Tour.GuidedTour.CurrentClasses | components/guided-tour.tsx:164-177 | The window is centered iff on the first or the last step. The steps and their positions are listed at lines 15-106. |
| Tour.GuidedTour.Next | components/guided-tour.tsx:116-124 | Next closes iff on the last step and then rewinds; otherwise it moves on by one. The step stays in [0, 15). |
| Tour.GuidedTour.Prev | components/guided-tour.tsx:126-131 | Back moves back by one only above step 0. |
| Tour.GuidedTour.Close | components/guided-tour.tsx:133-137 | Skip always closes and rewinds to 0. |
| Tour.GuidedTour.KeyDown | components/guided-tour.tsx:140-155 | The keyboard listener does what `KeyEffect` says. |
| Mobile.Toggled | components/mobile-toolbar.tsx:500-617 | A tab closes its own open panel and otherwise opens it. |
| Mobile.ToggleTwice | components/mobile-toolbar.tsx:542 | Pressing a tab twice returns to the start iff the panels were closed or already on that tab. |
| Mobile.AfterToolPick | components/mobile-toolbar.tsx:148-163 | Brush opens the brush options, eraser the eraser options, and fill/move close the panel. |
| Mobile.MobileToolbar.constructor | app/page.tsx:28-39 | The page's initial tool, color, stamp, shape, brush and eraser settings, font, no added texts, and a closed panel. |
| Mobile.MobileToolbar.PressTab | components/mobile-toolbar.tsx:500-617 | A tab press toggles its panel and changes nothing else. |
| Mobile.MobileToolbar.PressTextTab | components/mobile-toolbar.tsx:596-599 | The Text tab selects the text tool and closes the panel; nothing else changes. |
| Mobile.MobileToolbar.PickTool | components/mobile-toolbar.tsx:148-163 | The tool is always set, and the panel follows `AfterToolPick`; nothing else changes. |
| Mobile.MobileToolbar.PickStamp | components/mobile-toolbar.tsx:312-316 | Sets the stamp and the stamp tool, and closes the panel; nothing else changes. |
| Mobile.MobileToolbar.PickShape | components/mobile-toolbar.tsx:340-344 | Sets the shape and the shapes tool, and closes the panel; nothing else changes. |
| Mobile.MobileToolbar.PickColor | components/mobile-toolbar.tsx:368-371 | Sets the color and closes the panel; the tool and everything else are kept. |
| Mobile.MobileToolbar.PickBrushSize | components/mobile-toolbar.tsx:198 | Sets the brush size and changes nothing else, so the panel stays open. The same handler is wired at line 390. |
| Mobile.MobileToolbar.PickBrushShape | components/mobile-toolbar.tsx:221 | Sets the brush shape and changes nothing else, so the panel stays open. |
| Mobile.MobileToolbar.PickEraserSize | components/mobile-toolbar.tsx:256 | Sets the eraser size and changes nothing else, so the panel stays open. |
| Mobile.MobileToolbar.PickEraserShape | components/mobile-toolbar.tsx:279 | Sets the eraser shape and changes nothing else, so the panel stays open. |
| Mobile.MobileToolbar.PickFont | components/mobile-toolbar.tsx:442 | Sets the font and changes nothing else, so the panel stays open. |
| Mobile.MobileToolbar.AddSpecialText | components/mobile-toolbar.tsx:423-426 | Adds the text and closes the panel; nothing else changes. |
| Mobile.MobileToolbar.ClosePanel | components/mobile-toolbar.tsx:107-133 | The backdrop and the drag handle close the panel; nothing else changes. |
| Countdown.Decompose | components/countdown.tsx:25-31 | Days = ⌊diff / 86 400 000⌋, with hours in [0,24) and minutes and seconds in [0,60). |
| Countdown.DecomposeAddsUp | components/countdown.tsx:27-30 | days·86400 + hours·3600 + minutes·60 + seconds = ⌊diff / 1000⌋. |
| Countdown.DecomposeUnique | components/countdown.tsx:27-30 | The split is the only one whose units are in range and add up to the difference's seconds. |
| Countdown.CountdownClock.constructor | components/countdown.tsx:10-16 | The countdown starts at all zeros; the date and time-zone props are not read. |
| Countdown.CountdownClock.Tick | components/countdown.tsx:19-33 | The reading changes only while the difference is positive, and then to its split. |

The mobile toolbar class also keeps the invariant `Valid()` (an options panel is only ever open for its own tool) through every handler. The history manager keeps `Valid()` (cursor within the history, at most 50 entries, a restore target one step away). The canvas keeps `Valid()` (the only tagged object, if any, is at the back).

## Left out

- Rendering, hit-testing, serialization and rasterization by Fabric.js are not modelled. A snapshot is an opaque string, and a restore's outcome is a parameter of `History.HistoryManager.CompleteRestore`.
- Async timing is not modelled: image-load promises, the 500 ms initial-save timer, the countdown interval and confetti timeouts. Each promise is its begin and its settlement, in program order.
- React state is modelled as fields updated in order. Stale closures over an old `history` or `historyIndex` are not modelled.
- Floating-point geometry is not modelled: image scale factors, star points, heart paths and pixel-level tile drawing. Mirror and scramble coordinates are exact reals.
- `Math.random` is an input, and its distribution is not modelled. Nothing is claimed about how uniform the sort-based shuffle is; the model claims only that it yields a permutation.
- Browser I/O is not modelled: file uploads, the `imageUpload` event, `alert`/`confirm`, the download link, `ResizeObserver`, sounds and the stamp cursor.
- Patterns.CreatePatternCanvas: every draw is a command with its coordinates; what the hearts and stars glyphs, dots, confetti squares and lines look like in pixels is not modelled.
- Composer: asset URLs are modelled as (library, position). Balloon sizes and image scales are not modelled, so `Placed` leaves width, height and scale at 0.
- Composer: the five layout branches are a table of slots, with the same positions, angles and order as the code.
- Composer: which image loads fail is given per group, by position within the group (balloon k, layout slot k, stamp k, the cake), not by the order of `addImage` calls across the whole run.
- Composer.RandomDesign takes the canvas as a parameter. The page mounts the top bar without a canvas reference (app/page.tsx:258), so in the app as mounted the button does nothing.
- Composer.SaveScreenshot: what happens after the download (the success alert) and a `toDataURL` that throws are not modelled. A throw ends in the same error alert.
- Sidebar: the stamp paths are the sprite numbers. The string `/stamps/kidpix-spritesheet-0-N.png` built from each number is not modelled.
- Sidebar.PaginatedPicker.constructor requires at least one item per page. The app passes 8 or 6, and `ceil(n/0)` is not meaningful.
- Sidebar.ToolSidebar.ToolClick is stated for any tool. Every tool listed in the sidebar has a drawer, so in the app the sheet-closing branch is never taken.
- Countdown.Decompose uses integer division for positive differences, which equals `Math.floor` of the floating-point quotient and remainder there. Clock reading is an input: the difference to the target `2025-12-21T00:00:00` in local time.
- The history save after a fill, mirror or scramble is left to the page: those methods do not call `History.HistoryManager.SaveToHistory`.
- components/bottom-bar.tsx, components/right-sidebar.tsx, components/mac-ui.tsx, components/pixel-emoji.tsx, app/layout.tsx and lib/sound-manager.ts are not part of this model. They are styling, audio or duplicate saving code.
- In `Composer.RandomDesign`, a background image that fails to load aborts the whole run after the canvas is cleared; it is not a skipped asset.
- `CanvasArea.Canvas.PointerDownFill` turns the canvas white only when a pattern tile was drawn, while `CanvasArea.Canvas.FillCanvas` turns it white before trying.

## Findings

| source | as written | input that shows it | evidently intended | confidence | as-written member | corrected member |
|---|---|---|---|---|---|---|
| app/page.tsx:89-139 | `handleUndo`/`handleRedo` start a restore without checking `isRestoringRef`. Each settlement clears the single shared flag. | History [a, b, c] at cursor 2. Undo is clicked twice before the first restore settles, then the first succeeds: the flag is cleared while the second restore is still in flight. A save then records [a, b, x] while a restore is still pending. | No save is recorded while any restore is in flight (the guard at app/page.tsx:69). Undo and redo are ignored while a restore is in flight. | not executed | History.WrittenGuardLeaks | History.HistoryManager.BeginUndo |
