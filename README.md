# croppy: a Dafny model of the crop canvas and its page

croppy is a browser tool for cropping images. The user pastes or drops an image onto a
canvas, drags it under a fixed crop frame centred on the canvas, zooms it with the mouse
wheel, and resizes the frame by dragging a handle at the frame's bottom-right corner. The
result is exported at exactly the frame size, to the clipboard or as a PNG download. A
menu holds the frame size as two text fields. Those fields, the zoom sensitivity and any
custom size presets persist in the browser's local storage.

The model has one Dafny module per part of the program:

| file | module | models |
|---|---|---|
| `wrappers.dfy` | `Wrappers` | `Option` |
| `js_text.dfy` | `JsText` | the JavaScript string primitives the UI relies on: `trim`, `startsWith`, `parseInt` without a radix (`None` is NaN) and `Number.prototype.toString` on integers |
| `canvas_geometry.dfy` | `CanvasGeometry` | the centred crop box, the four dimming bands, the handle and its hit test, the client-to-buffer mapping |
| `canvas_pointer.dfy` | `CanvasPointer` | the mouse state machine (idle, dragging, resizing) as transitions on the value of the canvas's refs, and the refs as a class whose handlers are proved to perform those transitions |
| `canvas_zoom.dfy` | `CanvasZoom` | the wheel handler: clamped scale step and cursor-anchored position |
| `canvas_export.dfy` | `CanvasExport` | `getCroppedCanvas` as the drawing plan it performs, and `getCanvasState` |
| `presets.dfy` | `Presets` | the presets list: defaults, add, delete, select, drag-and-drop reorder, persistence of custom presets |
| `top_left_menu.dfy` | `CropSizeMenu` | the W/H fields, the sensitivity slider and their local-storage keys; a class with one method per handler |
| `page.dfy` | `Page` | the page: image load and removal, re-centring, copy/download guards, keyboard shortcuts, the download file name, the choice of image among pasted or dropped entries; a class with one method per handler |

The component state that the source mutates in place becomes a `class` for each stateful
component: `CanvasPointer.CanvasRefs`, `CropSizeMenu.TopLeftMenu` and `Page.Home`. Each
class method is proved to leave the class in the state given by a pure transition function
of the old state: `Press`, `Move`, `Release`, `XChange`, `ImageLoad`, `KeyDown`, and so on.
The properties are then proved about those functions. JavaScript numbers that come out of
`parseInt` are `Option<int>`, and NaN is `None`. Geometry is over `real`.

A few behaviours of the code that the model keeps as they are:

- `onImageLoad` re-centres the image on every load, not only the first one
  (src/app/page.tsx:50-74), and so does `Page.ImageLoad`.
- The pointer is scaled from display to buffer size only for the handle hit test
  (src/components/Canvas.tsx:198-202). The drag offset, the resize start and the wheel
  anchor use raw client coordinates (src/components/Canvas.tsx:226-227, 233-234, 280-281).
- A wheel event with `deltaY` equal to zero zooms in (src/components/Canvas.tsx:285):
  `CanvasZoom.Direction`.
- A resize can commit a size below 100 (see Findings).
- The download name keeps only the first 9 characters of the time part, so the
  milliseconds are dropped (src/app/page.tsx:143-145).

## Model

| member | source | states |
|---|---|---|
| JsText.TrimStart | src/components/PresetsDropdown.tsx:55 | the result is a suffix of the input, everything dropped is whitespace, and the result does not start with whitespace |
| JsText.TrimEnd | src/components/PresetsDropdown.tsx:55 | the result is a prefix of the input, everything dropped is whitespace, and the result does not end with whitespace |
| JsText.TrimEmptyIffBlank | src/components/PresetsDropdown.tsx:55 | `!name.trim()` holds exactly when every character of the name is whitespace (both directions) |
| JsText.DigitRun | src/components/TopLeftMenu.tsx:63 | the digit run `parseInt` reads is a prefix made of digits, followed by a non-digit or the end of the string |
| JsText.LeadingNumber | src/components/TopLeftMenu.tsx:63 | `parseInt` gives NaN exactly when no digit follows the sign and prefix |
| JsText.ParseInt | src/components/TopLeftMenu.tsx:63 | a blank string gives NaN, and a number is read only when the first non-blank character is a sign or a digit; which number is read is fixed by the lemmas below for decimal digits with an optional sign, a `0x` prefix, leading whitespace and trailing text |
| JsText.NatToString | src/components/TopLeftMenu.tsx:85-88 | `toString` of a natural number is a non-empty string of decimal digits with no leading zero (it starts with `0` only for 0) |
| JsText.IntToString | src/components/TopLeftMenu.tsx:85-88 | `toString` of an integer starts with a minus sign exactly when the integer is negative, every other character is a decimal digit, and no leading zero follows the sign (a leading `0` only for 0) |
| JsText.NumberToString | src/components/TopLeftMenu.tsx:93-95 | `String(v)` is "NaN" exactly when `v` is NaN: no number prints as "NaN" |
| JsText.DigitsValueOfNatToString | src/components/TopLeftMenu.tsx:85-88 | reading the decimal digits of `n` back gives `n` |
| JsText.ParseIntOfNat | src/components/TopLeftMenu.tsx:85-88 | `parseInt(String(n)) == n` for a natural `n` |
| JsText.ParseIntOfNegated | src/components/TopLeftMenu.tsx:85-88 | `parseInt("-" + String(m)) == -m` |
| JsText.ParseIntOfIntToString | src/components/TopLeftMenu.tsx:85-88 | `parseInt(String(n)) == n` for every integer |
| JsText.ParseIntOfNumberToString | src/components/TopLeftMenu.tsx:93-95 | round trip through `toString` for every parsed number, NaN included (`"NaN"` parses to NaN) |
| JsText.ParseIntOfEmpty | src/components/TopLeftMenu.tsx:63 | `parseInt('')` is NaN |
| JsText.ParseIntSkipsLeadingWhitespace | src/components/TopLeftMenu.tsx:63 | leading whitespace does not change what `parseInt` reads |
| JsText.ParseIntReadsDecimalPrefix | src/components/TopLeftMenu.tsx:63 | `parseInt` reads the leading decimal digits and ignores whatever follows them: `parseInt("42px")` is 42 |
| JsText.ParseIntCutsFraction | src/components/PresetsDropdown.tsx:60-61 | `parseInt` of digits, a dot and any fraction is the integer part: a fractional size is cut, not rejected |
| JsText.ParseIntOfPlusSign | src/components/TopLeftMenu.tsx:63 | a leading `+` reads exactly like no sign |
| JsText.ParseIntReadsHexPrefix | src/components/TopLeftMenu.tsx:63 | after `0x` or `0X`, the longest run of hex digits is read in radix 16 and whatever follows it is ignored |
| JsText.ParseIntReadsHex | src/components/TopLeftMenu.tsx:63 | `parseInt("-0x1A")` is -26: a sign may precede a hex prefix |
| JsText.ParseIntOfLetters | src/components/TopLeftMenu.tsx:63 | `parseInt("abc")` is NaN |
| CanvasGeometry.CropBox | src/components/Canvas.tsx:126-131 | the crop box has the given size and its centre is the canvas centre |
| CanvasGeometry.HitsHandle | src/components/Canvas.tsx:212-219 | the pointer grabs the handle when its squared distance to the handle centre is below 18²; `HitsHandleIffDistanceBelowThreshold` proves this is the `sqrt` test of the source |
| CanvasGeometry.HitsHandleIffDistanceBelowThreshold | src/components/Canvas.tsx:212-219 | comparing squared distances decides exactly as `sqrt(dx²+dy²) < 8 + 10` |
| CanvasGeometry.ToBuffer | src/components/Canvas.tsx:198-202 | the pointer's offset from the canvas box is scaled on each axis by buffer size / display size; when the two sizes agree it is the raw offset |
| CanvasGeometry.Bands | src/components/Canvas.tsx:137-144 | four bands, painted top, bottom, left, right; `DimmedExactlyOutsideBox` states what they cover |
| CanvasGeometry.DimLayersOfBands | src/components/Canvas.tsx:137-144 | the number of layers painted over a point is the number of the four bands that cover it |
| CanvasGeometry.DimmedExactlyOutsideBox | src/components/Canvas.tsx:133-144 | for a non-negative crop size, every canvas point outside the crop box is covered by exactly one dimming band, and no point inside it by any |
| CanvasGeometry.NegativeWidthDimsBoxTwice | src/components/Canvas.tsx:137-144 | for a negative crop width no wider than the canvas (a W the field accepts), the left and right bands overlap on the box, so every canvas point inside the box is dimmed twice |
| CanvasGeometry.NegativeHeightDimsBoxTwice | src/components/Canvas.tsx:137-144 | the mirror case: for a negative crop height no taller than the canvas, the top and bottom bands overlap on the box, so every canvas point inside it is dimmed twice |
| CanvasPointer.Round | src/components/Canvas.tsx:262 | `Math.round` gives the integer within half a unit, with halves rounded up |
| CanvasPointer.Press | src/components/Canvas.tsx:194-237 | a press within 18 px of the handle starts a resize from the committed size and raw pointer; otherwise a loaded image starts a drag whose offset makes the drag follow the pointer delta; otherwise nothing changes; the transient size is kept |
| CanvasPointer.Move | src/components/Canvas.tsx:239-257 | while resizing, each side of the transient size is start size + pointer delta, or 100 when that is smaller; nothing else in the refs changes and nothing is emitted; otherwise, while dragging a loaded image, a position is emitted; the flags never change |
| CanvasPointer.Release | src/components/Canvas.tsx:259-268 | both flags are cleared and nothing else in the refs changes; a resize in progress commits the rounded transient size, and only then |
| CanvasPointer.DisplayedCropBox | src/components/Canvas.tsx:125-131 | the drawn box is centred and shows the transient size while resizing, else the committed size |
| CanvasPointer.DragFollowsPointerDelta | src/components/Canvas.tsx:229-256 | after a drag press, the emitted position moves by exactly the pointer delta, without clamping |
| CanvasPointer.ReleaseCommitsLastMove | src/components/Canvas.tsx:240-264 | a release after a resize move commits the rounded last transient size, which is at least 100 × 100 |
| CanvasPointer.ClickOnHandleCommitsStaleSize | src/components/Canvas.tsx:219-262 | as written, a click on the handle without a move commits the stale transient size: 0 × 0 on a fresh canvas (the transient size starts at 0 × 0, line 58) |
| CanvasPointer.SecondPressSetsBothFlags | src/components/Canvas.tsx:219-236 | as written, a second press on the handle during a drag leaves both the drag and the resize flags set |
| CanvasPointer.PressCorrected | src/components/Canvas.tsx:219-236 | the corrected press keeps one gesture at a time with a transient size of at least 100, and from idle sets the same flags as the press as written |
| CanvasPointer.MoveReleaseKeepConsistent | src/components/Canvas.tsx:239-268 | move and release preserve "one gesture at a time, transient size at least 100" |
| CanvasPointer.CorrectedCommitNeverBelowMinimum | src/components/Canvas.tsx:259-264 | from a consistent state, every committed crop size is at least 100 × 100 |
| CanvasPointer.CorrectedClickOnHandleCommitsCurrentSize | src/components/Canvas.tsx:219-262 | with the corrected press, a click on the handle commits the current 832 × 1216 |
| CanvasPointer.CanvasRefs.constructor | src/components/Canvas.tsx:54-58 | the refs start idle with zero offsets and a 0 × 0 transient size |
| CanvasPointer.CanvasRefs.MouseDown | src/components/Canvas.tsx:194-237 | the handler computes the buffer-scaled handle distance and leaves the refs in the state `Press` gives |
| CanvasPointer.CanvasRefs.MouseMove | src/components/Canvas.tsx:239-257 | the handler's new refs and emitted position are those of `Move` |
| CanvasPointer.CanvasRefs.MouseUp | src/components/Canvas.tsx:259-268 | mouse-up and mouse-leave produce the refs and the commit given by `Release` (mouse-leave is bound to the same handler at line 416) |
| CanvasZoom.Clamp | src/components/Canvas.tsx:286 | a value inside [lo, hi] is kept, one below `lo` gives `lo`, and one above `hi` gives `hi` |
| CanvasZoom.Direction | src/components/Canvas.tsx:285 | -1 exactly when `deltaY > 0`, 1 exactly when `deltaY <= 0` |
| CanvasZoom.Wheel | src/components/Canvas.tsx:271-295 | no image gives no change; otherwise the new scale is the old one moved by one step of sensitivity/100 (down for `deltaY > 0`, up otherwise) and clamped to [0.1, 5]; so scrolling down never zooms in and scrolling up never zooms out |
| CanvasZoom.ImageCoordinate | src/components/Canvas.tsx:288-291 | the image coordinate `c` shown at canvas point `m` is the one with `position + c × scale == m` |
| CanvasZoom.WheelKeepsCursorAnchor | src/components/Canvas.tsx:288-291 | the image point under the cursor is the same before and after the zoom, on both axes |
| CanvasZoom.TenPercentStep | src/components/Canvas.tsx:284-286 | at sensitivity 10 and scale 1, one step down gives 0.9 and one step up gives 1.1 |
| CanvasExport.GetCroppedCanvas | src/components/Canvas.tsx:299-378 | null exactly without a canvas or an image; the output canvas has the committed crop size when that is a valid canvas size, and the default width 300 or height 150 for a negative side down to -2^31; without rotation the source rectangle is the image region under the crop box; with rotation the crop box window of a canvas-sized scene is copied |
| CanvasExport.CanvasDimension | src/components/Canvas.tsx:312-313 | assigning an integer to a canvas `width` or `height` keeps it when it is in [0, 2^31 - 1] and gives the default for a negative value down to -2^31 |
| CanvasExport.DirectExportMatchesPreview | src/components/Canvas.tsx:357-374 | without rotation, output point (u, v) samples the image point that the preview shows at crop-box corner + (u, v) |
| CanvasExport.PortraitOnSquareCanvas | src/components/Canvas.tsx:303-362 | 832 × 1216 on a 1200 × 1200 canvas at scale 1 and (0, 0): the source rectangle is (184, -8, 832, 1216) and the output is 832 × 1216 |
| CanvasExport.GetCanvasState | src/components/Canvas.tsx:379-401 | with a canvas: the current image, position and scale, and a crop box centred on the canvas; without one: no image, the origin, scale 1 and centre (0, 0) |
| Presets.Filter | src/components/PresetsDropdown.tsx:50 | the kept presets are exactly those of the input that pass the test |
| Presets.FilterAppend | src/components/PresetsDropdown.tsx:50-75 | filtering distributes over concatenation, so relative order is kept |
| Presets.Load | src/components/PresetsDropdown.tsx:35-46 | the list always starts with the four defaults; without a saved value it is just the defaults, and with one the saved presets follow |
| Presets.Persisted | src/components/PresetsDropdown.tsx:49-52 | what is written to storage holds exactly the presets whose id does not start with `preset-`, in order (`FilterAppend`) |
| Presets.DefaultIdsArePrefixed | src/components/PresetsDropdown.tsx:18-23 | every default id starts with `preset-` |
| Presets.PersistedDefaultsEmpty | src/components/PresetsDropdown.tsx:18-52 | no default preset is ever written to storage |
| Presets.SaveLoadRoundTrip | src/components/PresetsDropdown.tsx:41-52 | save then load restores the list if and only if it starts with the four defaults in order and no later preset has a `preset-` id |
| Presets.AddPreset | src/components/PresetsDropdown.tsx:54-64 | a blank name, an empty width or an empty height changes nothing; otherwise one preset `custom-<now>` with the parsed sizes is appended |
| Presets.AddedPresetIsPersisted | src/components/PresetsDropdown.tsx:50-66 | an added preset is always written to storage, after the earlier custom ones |
| Presets.DeletePreset | src/components/PresetsDropdown.tsx:74-79 | exactly the presets with another id survive, and none with the deleted id is left |
| Presets.DeletePreservesOrder | src/components/PresetsDropdown.tsx:75 | deleting distributes over concatenation: the survivors keep their order |
| Presets.DeletedDefaultReturnsOnReload | src/components/PresetsDropdown.tsx:41-75 | deleting a default preset is not persisted: after a reload the list is back as it was |
| Presets.SelectPreset | src/components/PresetsDropdown.tsx:104-106 | selecting forwards the preset's width and height |
| Presets.FindIndex | src/components/PresetsDropdown.tsx:92-93 | `findIndex` returns the first index with that id, or -1 exactly when there is none |
| Presets.SpliceStart | src/components/PresetsDropdown.tsx:96-97 | `splice` keeps a start in [0, len], counts a start in [-len, 0) from the end, and turns a start below -len into 0 and one above len into len |
| Presets.RemoveAt | src/components/PresetsDropdown.tsx:96 | `splice(k, 1)` leaves a list one shorter |
| Presets.RemoveAtElements | src/components/PresetsDropdown.tsx:96 | after `splice(k, 1)` the elements before `k` stay in place and the later ones move down by one |
| Presets.InsertAt | src/components/PresetsDropdown.tsx:97 | `splice(k, 0, x)` keeps the elements before `k` in place, puts `x` at index `k` and moves the rest up by one |
| Presets.Dropped | src/components/PresetsDropdown.tsx:89-97 | a drop keeps the length; an ignored drop keeps the list; otherwise the dragged preset ends up at the target's original index |
| Presets.DropPermutes | src/components/PresetsDropdown.tsx:89-97 | a drop keeps the length and is a permutation of the list |
| Presets.DropLandsAtTarget | src/components/PresetsDropdown.tsx:92-97 | the dragged preset lands at the target's original index, and the others keep their relative order |
| Presets.StaleDragMovesLastPreset | src/components/PresetsDropdown.tsx:92-96 | a dragged id no longer in the list reads as index -1, and `splice(-1, 1)` moves the last preset to the target |
| Presets.HandleDrop | src/components/PresetsDropdown.tsx:89-102 | the two splices on a copy produce the drop result, a permutation of the list |
| CropSizeMenu.InitialField | src/components/TopLeftMenu.tsx:27-36 | "0" outside the browser; otherwise the stored string when there is one, else the default |
| CropSizeMenu.Initial | src/components/TopLeftMenu.tsx:27-39 | the fields start from storage or 832/1216, and the sensitivity starts at 10 |
| CropSizeMenu.OnMount | src/components/TopLeftMenu.tsx:42-56 | the crop size is sent exactly when both keys are stored, as the `parseInt` of each; a stored sensitivity is parsed, kept and sent exactly when present |
| CropSizeMenu.OrZero | src/components/TopLeftMenu.tsx:64-66 | `value \|\| '0'` gives "0" for the empty string and the value itself for any other string |
| CropSizeMenu.FieldChange | src/components/TopLeftMenu.tsx:58-69 | storage is written exactly for empty or number-like input, with "0" for empty; the page is notified exactly for non-empty number-like input, with the other field's number |
| CropSizeMenu.XChange | src/components/TopLeftMenu.tsx:58-69 | W always shows the typed string; H and the slider are untouched; storage and the notification follow `FieldChange` with H as the other field |
| CropSizeMenu.YChange | src/components/TopLeftMenu.tsx:71-82 | the mirror image of `XChange`; the notification is still (W, H) |
| CropSizeMenu.PresetSelect | src/components/TopLeftMenu.tsx:84-90 | both fields and both keys get the printed sizes, and one notification carries the sizes |
| CropSizeMenu.ZoomChange | src/components/TopLeftMenu.tsx:92-97 | the slider value is parsed, stored as printed and sent on |
| CropSizeMenu.InvalidInputOnlyUpdatesField | src/components/TopLeftMenu.tsx:58-82 | input that is not a number changes only the field: no storage write, no notification |
| CropSizeMenu.EmptyInputStoresZero | src/components/TopLeftMenu.tsx:63-78 | clearing a field stores "0" and sends nothing |
| CropSizeMenu.ValidInputNotifiesWithOtherField | src/components/TopLeftMenu.tsx:65-67 | a number typed into W is sent with H's number, which is NaN when H holds junk |
| CropSizeMenu.AcceptedInputStoresANumber | src/components/TopLeftMenu.tsx:63-64 | whatever a field handler stores reads back as a number; for empty input it reads back as 0 |
| CropSizeMenu.ReloadRestoresTypedWidth | src/components/TopLeftMenu.tsx:42-69 | after a valid W change, a reload notifies the same W (when H is stored) |
| CropSizeMenu.ReloadRestoresPreset | src/components/TopLeftMenu.tsx:27-90 | after a preset is chosen, a reload shows the same strings and notifies the same sizes, NaN included |
| CropSizeMenu.ReloadRestoresSensitivity | src/components/TopLeftMenu.tsx:42-97 | after a slider change, a reload restores and sends the same sensitivity |
| CropSizeMenu.FreshBrowserDefaults | src/components/TopLeftMenu.tsx:27-56 | with empty storage the fields show 832 and 1216, and mount sends nothing |
| CropSizeMenu.TopLeftMenu.constructor | src/components/TopLeftMenu.tsx:27-39 | the component starts in the `Initial` state |
| CropSizeMenu.TopLeftMenu.Mount | src/components/TopLeftMenu.tsx:42-56 | the effect's new state and callbacks are those of `OnMount` |
| CropSizeMenu.TopLeftMenu.HandleXChange | src/components/TopLeftMenu.tsx:58-69 | the handler's new state and notification are those of `XChange` |
| CropSizeMenu.TopLeftMenu.HandleYChange | src/components/TopLeftMenu.tsx:71-82 | the handler's new state and notification are those of `YChange` |
| CropSizeMenu.TopLeftMenu.HandlePresetSelect | src/components/TopLeftMenu.tsx:84-90 | the handler's new state and notification are those of `PresetSelect` |
| CropSizeMenu.TopLeftMenu.HandleZoomSensitivityChange | src/components/TopLeftMenu.tsx:92-97 | the handler's new state and notification are those of `ZoomChange` |
| Page.Centered | src/app/page.tsx:65-69 | the centred position leaves equal margins on both sides of each axis |
| Page.CenteredImageCentre | src/app/page.tsx:65-69 | a centred image's centre is the canvas centre (reset centres the image the same way, at lines 183-186) |
| Page.ImageLoad | src/app/page.tsx:50-74 | the original size is recorded, the image counts as loaded and rotation is 0; with a canvas, the scale is 1 and the image is centred; nothing else changes |
| Page.CropSizeChange | src/app/page.tsx:76-79 | the crop size is taken as given, NaN included; nothing else changes |
| Page.ResetClick | src/app/page.tsx:173-191 | with an image and a canvas, the image is re-centred at its current scale; otherwise nothing changes; only the position ever changes |
| Page.RemoveImage | src/app/page.tsx:193-200 | no image, no original size and no image data afterwards; everything else is kept |
| Page.KeyActions | src/app/page.tsx:204-224 | h/H toggles help, Ctrl+c copies, Ctrl+s downloads, r/R resets, each exactly for those keys |
| Page.AtMostOneKeyAction | src/app/page.tsx:204-224 | one key press triggers at most one of the four actions |
| Page.KeyDown | src/app/page.tsx:204-224 | copy and download start only with an image; help toggles and the image resets as `KeyActions` says |
| Page.HandlersKeepValid | src/app/page.tsx:25-198 | every handler keeps "no image implies no original size" |
| Page.ResetAfterLoadIsNoop | src/app/page.tsx:50-191 | right after a load, reset changes nothing |
| Page.ResetIdempotent | src/app/page.tsx:173-191 | resetting twice is resetting once |
| Page.RemovedImageBlocksExportAndReset | src/app/page.tsx:113-200 | after removal no export starts and reset does nothing, while position, scale and crop size are kept |
| Page.HelpToggleTwice | src/app/page.tsx:205-208 | pressing h twice leaves the state as it was |
| Page.ReplaceColonsAndDots | src/app/page.tsx:143-144 | same length, every `:` and `.` becomes `-`, everything else stays |
| Page.Before | src/app/page.tsx:143-144 | `split(c)[0]` is the prefix before the first `c`, or all of the string |
| Page.After | src/app/page.tsx:144 | the string is the part before the first `c`, then `c`, then this part |
| Page.Take | src/app/page.tsx:144 | `substring(0, n)` is a prefix of length n, or the whole string when it is shorter |
| Page.DownloadName | src/app/page.tsx:145 | the name is "croppy-", then `date` "T" `time`, then ".png"; the middle part has no `:` or `.` when `date` and `time` have none |
| Page.Filename | src/app/page.tsx:141-145 | the download name starts with "croppy-", ends with ".png", and its timestamp has no `:` or `.` |
| Page.FilenameOfTimestamp | src/app/page.tsx:143-145 | for `date` "T" `time`, the name holds the replaced date, "T" and the first 9 characters of the replaced time |
| Page.FilenameExample | src/app/page.tsx:143-145 | 2024-01-02T03:04:05.678Z gives croppy-2024-01-02T03-04-05-.png: the milliseconds are dropped |
| Page.HandlePaste | src/app/page.tsx:226-241 | the default paste is suppressed exactly when some entry has an image type; only the first image entry is considered, and it is processed exactly when it has a file |
| Page.HandleDrop | src/app/page.tsx:257-271 | nothing is processed exactly when there is no image file; otherwise the first image file is processed |
| Page.Home.constructor | src/app/page.tsx:18-28 | the page starts with no image, scale 1, crop 832 × 1216 and sensitivity 10 |
| Page.Home.HandleBlobDecoded | src/app/page.tsx:31-47 | a decoded blob's URL becomes the image data; a failed decode changes nothing |
| Page.Home.HandleImageLoad | src/app/page.tsx:50-74 | the handler leaves the page in the `ImageLoad` state |
| Page.Home.HandlePositionChange | src/app/page.tsx:76-79 | the handler leaves the page in the `CropSizeChange` state |
| Page.Home.HandleResetClick | src/app/page.tsx:173-191 | the handler leaves the page in the `ResetClick` state |
| Page.Home.HandleRemoveImage | src/app/page.tsx:193-200 | the handler leaves the page in the `RemoveImage` state |
| Page.Home.HandleCopyClick | src/app/page.tsx:113-120 | the copy starts exactly when an image is loaded |
| Page.Home.HandleDownloadClick | src/app/page.tsx:164-171 | the download starts exactly when an image is loaded |
| Page.Home.HandleKeyDown | src/app/page.tsx:204-224 | the handler's new state and started exports are those of `KeyDown` |
| Page.Home.SetImagePosition | src/app/page.tsx:285 | the canvas's position callback replaces the position only |
| Page.Home.SetScale | src/app/page.tsx:286 | the canvas's scale callback replaces the scale only |
| Page.Home.ShowHelp | src/app/page.tsx:303 | the menu's help button shows the help overlay and changes nothing else |
| Page.Home.SetZoomSensitivity | src/app/page.tsx:306 | the menu's sensitivity callback replaces the sensitivity only |

## Left out

- Pixel drawing (`render`, strokes, the handle circle, the background fill) is left out: the model keeps only the geometry it paints (crop box, bands, handle).
- The rotated render and rotated export are modelled as a plan only (a canvas-sized scene and the crop window copied from it). The rotation itself involves trigonometry on floating point.
- Floating point is left out: all geometry is over exact reals, and the zoom anchor is proved exact over reals.
- JsText.ParseInt: does not model the loss of precision of very long digit strings, because JavaScript numbers are doubles and the model's integers are unbounded.
- JsText.NatToString: writes every natural number in plain decimal, while JavaScript writes numbers of 10^21 and above in exponent form ("1e+21"). `JsText.ParseIntOfNumberToString` and `CropSizeMenu.ReloadRestoresPreset` therefore hold in the browser only for sizes below 10^21.
- The W and H fields and the preset size fields are number inputs (src/components/TopLeftMenu.tsx:106, 117; src/components/PresetsDropdown.tsx:135, 142): the browser hands their handlers an empty string for text that is not a number. The model takes the field value as any string, so it also covers values the browser never hands over, such as `42px` or `abc`.
- CanvasGeometry.DimmedExactlyOutsideBox: holds only for a non-negative crop size. The W and H fields accept negative numbers, and a negative side dims the box twice (`NegativeWidthDimsBoxTwice`, `NegativeHeightDimsBoxTwice`). The model does not state the case where both sides are negative, or where a negative side is longer than the canvas.
- CanvasExport.GetCroppedCanvas: requires a positive scale, because the source divides by the scale when it exports without rotation. The page's scale is 1 or clamped to [0.1, 5].
- CanvasExport.GetCroppedCanvas: takes the crop size as an integer. A NaN crop size, which the page can hold, is not modelled; negative sizes are, through `CanvasExport.CanvasDimension`.
- Presets.Load: the JSON parse of the saved presets is an opaque `Option` (`None` for no value, an empty value or a parse error). The JSON encoding of NaN as `null` is not modelled.
- Server-side rendering is the `inBrowser` parameter of `CropSizeMenu.Initial`.
- Blob decoding, object URLs, the clipboard write and the file download are asynchronous browser I/O. The model keeps only whether an export starts, and which entry is processed.
- `Date.now()` and `new Date().toISOString()` are parameters: `now` of `Presets.AddPreset`, and `iso` of `Page.Filename`.
- A failing `getContext` is left out: the model assumes a 2D context is available.
- The early return when the canvas element is missing in the mouse-down and wheel handlers is left out: the model's handlers always have a canvas.
- CanvasPointer.CanvasRefs.MouseDown: requires a non-zero display size, because the source divides by it.
- CanvasZoom.Wheel: requires a positive scale when an image is loaded, because the source divides by the scale. The page never sets it to 0.
- Presets.HandleDrop: requires that the target id is in the list, because a drop only fires on a rendered preset.
- The page does not wire the canvas's `onCropResize` (src/app/page.tsx:275-289). A resize commit therefore reaches no page state, and the model does not connect `Release` to `Page.Home`.
- The presets dropdown's open/closed state, delete confirmation, add-form fields and drag-over handler are UI toggles only. They are not modelled.
- The help overlay, the top-right menu, the utility bar and the page layout are not part of this model.
- The `Page.Home` class and `CanvasPointer.CanvasRefs` follow the code as written. The corrected press (`CanvasPointer.PressCorrected`) is proved alongside, not wired into the class.

## Findings

| source | as written | input that shows it | evidently intended | confidence | as-written member | corrected member |
|---|---|---|---|---|---|---|
| src/components/Canvas.tsx:58, 219-228, 262 | a press on the handle sets the resize flag but does not reset the transient size, and mouse-up commits that transient size | a fresh 1200 × 1200 canvas shown at buffer size, crop 832 × 1216: mouse-down at the handle (1016, 1208), then mouse-up with no move, commits 0 × 0 | a click on the handle keeps the current size, and a commit is never below 100 × 100 | not executed | CanvasPointer.ClickOnHandleCommitsStaleSize | CanvasPointer.CorrectedClickOnHandleCommitsCurrentSize |
| src/components/Canvas.tsx:219-236 | mouse-down neither checks nor clears the other gesture's flag | a press on the image at (600, 600), then a second press on the handle before any mouse-up, leaves both dragging and resizing set | one gesture at a time, so every commit is at least 100 × 100 | not executed | CanvasPointer.SecondPressSetsBothFlags | CanvasPointer.CorrectedCommitNeverBelowMinimum |
