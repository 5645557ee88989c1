/**
 * The page that wires everything together: image load and removal, re-centring, the
 * copy/download guards, keyboard shortcuts, the download file name and the choice of
 * the image among pasted or dropped entries.
 */
module Page {
  import opened Wrappers
  import opened JsText
  import opened CanvasGeometry

  const DefaultCropWidth: int := 832
  const DefaultCropHeight: int := 1216
  const DefaultSensitivity: int := 10

  /** The canvas element's buffer size, when the page has one. */
  datatype CanvasElement = CanvasElement(width: nat, height: nat)

  /** The page's state; crop sizes and sensitivity come from `parseInt` and may be NaN. */
  datatype HomeState = HomeState(
    imagePosition: Point,
    scale: real,
    rotation: int,
    cropWidth: ParsedInt,
    cropHeight: ParsedInt,
    zoomSensitivity: ParsedInt,
    showHelp: bool,
    originalWidth: nat,
    originalHeight: nat,
    imageLoaded: bool,
    imageData: Option<string>)

  const InitialHome: HomeState :=
    HomeState(Point(0.0, 0.0), 1.0, 0, Some(DefaultCropWidth), Some(DefaultCropHeight),
              Some(DefaultSensitivity), false, 0, 0, false, None)

  /** Without an image there is no original size. */
  predicate Valid(s: HomeState) {
    !s.imageLoaded ==> s.originalWidth == 0 && s.originalHeight == 0
  }

  /**
   * Where an image of on-canvas size `w` x `h` goes so that it is centred: equal margins
   * on both sides of each axis.
   */
  function Centered(canvas: CanvasElement, w: real, h: real): (p: Point)
    ensures p.x == canvas.width as real - (p.x + w)
    ensures p.y == canvas.height as real - (p.y + h)
  {
    Point((canvas.width as real - w) / 2.0, (canvas.height as real - h) / 2.0)
  }

  /** The centre of a centred image is the centre of the canvas. */
  lemma CenteredImageCentre(canvas: CanvasElement, w: real, h: real)
    ensures Centered(canvas, w, h).x + w / 2.0 == canvas.width as real / 2.0
    ensures Centered(canvas, w, h).y + h / 2.0 == canvas.height as real / 2.0
  {
  }

  /**
   * `handleImageLoad`: the original size is recorded, the image counts as loaded and
   * rotation goes back to 0; with a canvas, scale becomes 1 and the image is centred.
   */
  function ImageLoad(s: HomeState, width: nat, height: nat, canvas: Option<CanvasElement>): (r: HomeState)
    ensures r.imageLoaded && r.originalWidth == width && r.originalHeight == height && r.rotation == 0
    ensures canvas.Some? ==>
      r.scale == 1.0 && r.imagePosition == Centered(canvas.value, width as real, height as real)
    ensures canvas.None? ==> r.scale == s.scale && r.imagePosition == s.imagePosition
    ensures r.(imagePosition := s.imagePosition, scale := s.scale, rotation := s.rotation,
               originalWidth := s.originalWidth, originalHeight := s.originalHeight,
               imageLoaded := s.imageLoaded) == s
  {
    var loaded := s.(originalWidth := width, originalHeight := height, imageLoaded := true, rotation := 0);
    match canvas
    case None => loaded
    case Some(c) =>
      loaded.(scale := 1.0, imagePosition := Centered(c, width as real * 1.0, height as real * 1.0))
  }

  /** The crop-size callback of the menu: stored as given, NaN and sizes below 100 included. */
  function CropSizeChange(s: HomeState, width: ParsedInt, height: ParsedInt): (r: HomeState)
    ensures r.cropWidth == width && r.cropHeight == height
    ensures r.(cropWidth := s.cropWidth, cropHeight := s.cropHeight) == s
  {
    s.(cropWidth := width, cropHeight := height)
  }

  /**
   * `handleResetClick`: with an image and a canvas, the image is re-centred at its
   * current scale; otherwise nothing happens. Scale and everything else stay.
   */
  function ResetClick(s: HomeState, canvas: Option<CanvasElement>): (r: HomeState)
    ensures r.(imagePosition := s.imagePosition) == s
    ensures !s.imageLoaded || canvas.None? ==> r == s
    ensures s.imageLoaded && canvas.Some? ==>
      r.imagePosition == Centered(canvas.value, s.originalWidth as real * s.scale, s.originalHeight as real * s.scale)
  {
    if s.imageLoaded && canvas.Some? then
      s.(imagePosition := Centered(canvas.value, s.originalWidth as real * s.scale, s.originalHeight as real * s.scale))
    else s
  }

  /** `handleRemoveImage`: no image, no original size, no image data; the view is kept. */
  function RemoveImage(s: HomeState): (r: HomeState)
    ensures !r.imageLoaded && r.originalWidth == 0 && r.originalHeight == 0 && r.imageData.None?
    ensures r.(imageLoaded := s.imageLoaded, originalWidth := s.originalWidth,
               originalHeight := s.originalHeight, imageData := s.imageData) == s
  {
    s.(imageLoaded := false, originalWidth := 0, originalHeight := 0, imageData := None)
  }

  /** Copy and download go ahead only when an image is loaded. */
  predicate ExportStarts(s: HomeState) {
    s.imageLoaded
  }

  // ---------------------------------------------------------------------------
  // Keyboard shortcuts

  /** What one key press triggers. */
  datatype KeyAction = KeyAction(toggleHelp: bool, copy: bool, download: bool, reset: bool)

  /** `h`/`H` toggles help, Ctrl+`c` copies, Ctrl+`s` downloads, `r`/`R` resets. */
  function KeyActions(key: string, ctrlKey: bool): (a: KeyAction)
    ensures a.toggleHelp <==> key == "h" || key == "H"
    ensures a.copy <==> ctrlKey && key == "c"
    ensures a.download <==> ctrlKey && key == "s"
    ensures a.reset <==> key == "r" || key == "R"
  {
    KeyAction(key == "h" || key == "H", ctrlKey && key == "c", ctrlKey && key == "s", key == "r" || key == "R")
  }

  /** The four checks are separate, but one key press never triggers two of them. */
  lemma AtMostOneKeyAction(key: string, ctrlKey: bool)
    ensures var a := KeyActions(key, ctrlKey);
      (if a.toggleHelp then 1 else 0) + (if a.copy then 1 else 0)
      + (if a.download then 1 else 0) + (if a.reset then 1 else 0) <= 1
  {
  }

  /**
   * `handleKeyDown`: the new state, and whether a copy and a download were started.
   * Ctrl+`h` still toggles help, and Ctrl+`r` still resets.
   */
  function KeyDown(s: HomeState, key: string, ctrlKey: bool, canvas: Option<CanvasElement>)
    : (r: (HomeState, bool, bool))
    ensures var a := KeyActions(key, ctrlKey);
      r.1 == (a.copy && ExportStarts(s)) && r.2 == (a.download && ExportStarts(s))
      && r.0 == (if a.reset then ResetClick(s, canvas) else s).(showHelp := if a.toggleHelp then !s.showHelp else s.showHelp)
  {
    var a := KeyActions(key, ctrlKey);
    var helped := if a.toggleHelp then s.(showHelp := !s.showHelp) else s;
    var reset := if a.reset then ResetClick(helped, canvas) else helped;
    (reset, a.copy && ExportStarts(helped), a.download && ExportStarts(helped))
  }

  // ---------------------------------------------------------------------------
  // Properties of the page state

  /** Every handler keeps "no image, no original size". */
  lemma HandlersKeepValid(s: HomeState, width: nat, height: nat, canvas: Option<CanvasElement>,
                          cw: ParsedInt, ch: ParsedInt, key: string, ctrlKey: bool)
    requires Valid(s)
    ensures Valid(InitialHome)
    ensures Valid(ImageLoad(s, width, height, canvas))
    ensures Valid(CropSizeChange(s, cw, ch))
    ensures Valid(ResetClick(s, canvas))
    ensures Valid(RemoveImage(s))
    ensures Valid(KeyDown(s, key, ctrlKey, canvas).0)
  {
  }

  /** Right after a load, resetting changes nothing: the image is already centred at scale 1. */
  lemma ResetAfterLoadIsNoop(s: HomeState, width: nat, height: nat, c: CanvasElement)
    ensures ResetClick(ImageLoad(s, width, height, Some(c)), Some(c)) == ImageLoad(s, width, height, Some(c))
  {
  }

  /** Resetting twice is resetting once. */
  lemma ResetIdempotent(s: HomeState, canvas: Option<CanvasElement>)
    ensures ResetClick(ResetClick(s, canvas), canvas) == ResetClick(s, canvas)
  {
  }

  /** After removal nothing can be exported and reset does nothing, but the view is kept. */
  lemma RemovedImageBlocksExportAndReset(s: HomeState, canvas: Option<CanvasElement>)
    ensures !ExportStarts(RemoveImage(s))
    ensures ResetClick(RemoveImage(s), canvas) == RemoveImage(s)
    ensures RemoveImage(s).scale == s.scale && RemoveImage(s).imagePosition == s.imagePosition
    ensures RemoveImage(s).cropWidth == s.cropWidth && RemoveImage(s).cropHeight == s.cropHeight
  {
  }

  /** Pressing `h` twice leaves the help overlay as it was. */
  lemma HelpToggleTwice(s: HomeState, canvas: Option<CanvasElement>)
    ensures KeyDown(KeyDown(s, "h", false, canvas).0, "h", false, canvas).0 == s
  {
  }

  // ---------------------------------------------------------------------------
  // The download file name

  /** No `:` and no `.` in `s`. */
  predicate NoSeparator(s: string) {
    forall i :: 0 <= i < |s| ==> s[i] != ':' && s[i] != '.'
  }

  /** `replace(/[:.]/g, '-')`. */
  function ReplaceColonsAndDots(s: string): (r: string)
    ensures |r| == |s| && NoSeparator(r)
    ensures forall i :: 0 <= i < |s| ==> r[i] == (if s[i] == ':' || s[i] == '.' then '-' else s[i])
  {
    if s == [] then []
    else [if s[0] == ':' || s[0] == '.' then '-' else s[0]] + ReplaceColonsAndDots(s[1..])
  }

  /** `split(c)[0]`: everything before the first `c`, or all of `s` when there is none. */
  function Before(s: string, c: char): (r: string)
    ensures |r| <= |s| && r == s[..|r|] && c !in r
    ensures |r| < |s| ==> s[|r|] == c
    ensures c !in s ==> r == s
  {
    if s == [] || s[0] == c then []
    else [s[0]] + Before(s[1..], c)
  }

  /** What follows the first `c`. */
  function After(s: string, c: char): (r: string)
    requires c in s
    ensures s == Before(s, c) + [c] + r
  {
    s[|Before(s, c)| + 1..]
  }

  /** `substring(0, n)`. */
  function Take(s: string, n: nat): (r: string)
    ensures |r| <= n && |r| <= |s| && r == s[..|r|]
    ensures |s| >= n ==> |r| == n
    ensures |s| <= n ==> r == s
  {
    if |s| <= n then s else s[..n]
  }

  /** `croppy-${timestamp}.png` with `timestamp` = `date` "T" `time`. */
  function DownloadName(date: string, time: string): (r: string)
    ensures |r| == |date| + |time| + 12 && r[..7] == "croppy-" && r[|r| - 4..] == ".png"
    ensures r[7..|r| - 4] == date + "T" + time
    ensures NoSeparator(date) && NoSeparator(time) ==> NoSeparator(r[7..|r| - 4])
  {
    var r := "croppy-" + date + "T" + time + ".png";
    assert r[7..|r| - 4] == date + "T" + time;
    assert NoSeparator(date) && NoSeparator(time) ==> NoSeparator(date + "T" + time) by {
      if NoSeparator(date) && NoSeparator(time) {
        assert NoSeparator("T");
        NoSeparatorAppend(date, "T");
        NoSeparatorAppend(date + "T", time);
      }
    }
    r
  }

  /**
   * The download name for a timestamp `iso`: "croppy-", the date part with `:` and `.`
   * replaced by `-`, "T", the first 9 characters of the (likewise replaced) time part
   * that follows the first "T", then ".png". `toISOString` always contains a "T".
   */
  function Filename(iso: string): (r: string)
    requires 'T' in iso
    ensures |r| >= 12 && r[..7] == "croppy-" && r[|r| - 4..] == ".png"
    ensures NoSeparator(r[7..|r| - 4])
  {
    var replaced := ReplaceColonsAndDots(iso);
    var date := Before(replaced, 'T');
    var time := ReplaceColonsAndDots(Before(After(iso, 'T'), 'T'));
    NoSeparatorPrefix(replaced, |date|);
    NoSeparatorPrefix(time, |Take(time, 9)|);
    DownloadName(date, Take(time, 9))
  }

  lemma NoSeparatorPrefix(s: string, n: nat)
    requires NoSeparator(s) && n <= |s|
    ensures NoSeparator(s[..n])
  {
    assert forall i :: 0 <= i < n ==> s[..n][i] == s[i];
  }

  lemma NoSeparatorAppend(a: string, b: string)
    requires NoSeparator(a) && NoSeparator(b)
    ensures NoSeparator(a + b)
  {
    forall i | 0 <= i < |a + b| ensures (a + b)[i] != ':' && (a + b)[i] != '.' {
      if i >= |a| {
        assert (a + b)[i] == b[i - |a|];
      }
    }
  }

  /** Replacing changes nothing in a string that has no `:` and no `.`. */
  lemma ReplaceWithoutSeparator(s: string)
    requires NoSeparator(s)
    ensures ReplaceColonsAndDots(s) == s
  {
    var r := ReplaceColonsAndDots(s);
    assert forall i :: 0 <= i < |s| ==> r[i] == s[i];
  }

  lemma {:induction false} ReplaceAppend(a: string, b: string)
    ensures ReplaceColonsAndDots(a + b) == ReplaceColonsAndDots(a) + ReplaceColonsAndDots(b)
  {
    if a != [] {
      assert (a + b)[1..] == a[1..] + b;
      ReplaceAppend(a[1..], b);
    }
  }

  lemma {:induction false} BeforeJoined(a: string, c: char, b: string)
    requires c !in a
    ensures Before(a + [c] + b, c) == a
  {
    if a != [] {
      assert (a + [c] + b)[1..] == a[1..] + [c] + b;
      BeforeJoined(a[1..], c, b);
    }
  }

  /**
   * For an ISO timestamp `date` "T" `time` (no other "T"), the name is "croppy-", the date,
   * "T", the first 9 characters of the time with `:` and `.` replaced, and ".png".
   */
  lemma FilenameOfTimestamp(date: string, time: string)
    requires 'T' !in date && 'T' !in time
    ensures Filename(date + "T" + time)
         == DownloadName(ReplaceColonsAndDots(date), Take(ReplaceColonsAndDots(time), 9))
  {
    var iso := date + "T" + time;
    BeforeJoined(date, 'T', time);
    assert After(iso, 'T') == time;
    assert Before(time, 'T') == time;
    var rd, rt := ReplaceColonsAndDots(date), ReplaceColonsAndDots(time);
    assert ReplaceColonsAndDots(['T']) == ['T'];
    ReplaceAppend(date, ['T']);
    ReplaceAppend(date + ['T'], time);
    assert ReplaceColonsAndDots(iso) == rd + ['T'] + rt;
    assert 'T' !in rd by {
      forall i | 0 <= i < |rd| ensures rd[i] != 'T' {
        assert date[i] != 'T';
      }
    }
    BeforeJoined(rd, 'T', rt);
  }

  lemma ExampleDateUnchanged()
    ensures ReplaceColonsAndDots("2024-01-02") == "2024-01-02"
  {
    assert NoSeparator("2024-01-02");
    ReplaceWithoutSeparator("2024-01-02");
  }

  lemma ExampleTimeCut(time: string)
    requires time == "03:04:05.678Z"
    ensures Take(ReplaceColonsAndDots(time), 9) == "03-04-05-"
  {
    var t := ReplaceColonsAndDots(time);
    assert t[..9] == "03-04-05-";
  }

  lemma ExampleHasOneT()
    ensures 'T' !in "2024-01-02" && 'T' !in "03:04:05.678Z"
    ensures "2024-01-02" + "T" + "03:04:05.678Z" == "2024-01-02T03:04:05.678Z"
  {
  }

  /** The milliseconds are cut off: 03:04:05.678 becomes 03-04-05-. */
  lemma FilenameExample()
    ensures Filename("2024-01-02T03:04:05.678Z") == DownloadName("2024-01-02", "03-04-05-")
  {
    ExampleHasOneT();
    FilenameOfTimestamp("2024-01-02", "03:04:05.678Z");
    ExampleDateUnchanged();
    ExampleTimeCut("03:04:05.678Z");
  }

  // ---------------------------------------------------------------------------
  // Paste and drop

  predicate IsImageType(mimeType: string) {
    StartsWith(mimeType, "image/")
  }

  /** A clipboard entry: its MIME type and whether `getAsFile` yields a blob. */
  datatype ClipboardEntry = ClipboardEntry(mimeType: string, hasFile: bool)

  /**
   * `handlePaste`: the first entry with an image type ends the scan; its blob, if there
   * is one, is the image processed. Returns that entry's index (if processed) and whether
   * the default paste was suppressed.
   */
  method HandlePaste(items: Option<seq<ClipboardEntry>>) returns (processed: Option<nat>, prevented: bool)
    ensures prevented <==> items.Some? && exists i :: 0 <= i < |items.value| && IsImageType(items.value[i].mimeType)
    ensures processed.Some? ==>
      items.Some? && processed.value < |items.value|
      && IsImageType(items.value[processed.value].mimeType) && items.value[processed.value].hasFile
      && forall i :: 0 <= i < processed.value ==> !IsImageType(items.value[i].mimeType)
    ensures processed.None? && prevented ==>
      exists i :: 0 <= i < |items.value| && IsImageType(items.value[i].mimeType) && !items.value[i].hasFile
        && forall j :: 0 <= j < i ==> !IsImageType(items.value[j].mimeType)
  {
    processed := None;
    prevented := false;
    if items.None? {
      return;
    }
    var entries := items.value;
    for k := 0 to |entries|
      invariant forall i :: 0 <= i < k ==> !IsImageType(entries[i].mimeType)
    {
      if IsImageType(entries[k].mimeType) {
        prevented := true;
        if entries[k].hasFile {
          processed := Some(k);
        }
        return;
      }
    }
  }

  /** `handleDrop`: the first file with an image type is processed; the rest are ignored. */
  method HandleDrop(files: Option<seq<string>>) returns (processed: Option<nat>)
    ensures processed.None? <==>
      files.None? || forall i :: 0 <= i < |files.value| ==> !IsImageType(files.value[i])
    ensures processed.Some? ==>
      processed.value < |files.value| && IsImageType(files.value[processed.value])
      && forall i :: 0 <= i < processed.value ==> !IsImageType(files.value[i])
  {
    processed := None;
    if files.None? {
      return;
    }
    var types := files.value;
    for k := 0 to |types|
      invariant forall i :: 0 <= i < k ==> !IsImageType(types[i])
    {
      if IsImageType(types[k]) {
        processed := Some(k);
        return;
      }
    }
  }

  // ---------------------------------------------------------------------------
  // The component

  class Home {
    var imagePosition: Point
    var scale: real
    var rotation: int
    var cropWidth: ParsedInt
    var cropHeight: ParsedInt
    var zoomSensitivity: ParsedInt
    var showHelp: bool
    var originalWidth: nat
    var originalHeight: nat
    var imageLoaded: bool
    var imageData: Option<string>

    function State(): HomeState
      reads this
    {
      HomeState(imagePosition, scale, rotation, cropWidth, cropHeight, zoomSensitivity,
                showHelp, originalWidth, originalHeight, imageLoaded, imageData)
    }

    constructor()
      ensures State() == InitialHome
    {
      imagePosition := Point(0.0, 0.0);
      scale := 1.0;
      rotation := 0;
      cropWidth := Some(DefaultCropWidth);
      cropHeight := Some(DefaultCropHeight);
      zoomSensitivity := Some(DefaultSensitivity);
      showHelp := false;
      originalWidth := 0;
      originalHeight := 0;
      imageLoaded := false;
      imageData := None;
    }

    /** The decoded blob's object URL becomes the image data; a failed decode changes nothing. */
    method HandleBlobDecoded(url: string, decoded: bool)
      modifies this
      ensures State() == if decoded then old(State()).(imageData := Some(url)) else old(State())
    {
      if decoded {
        imageData := Some(url);
      }
    }

    method HandleImageLoad(width: nat, height: nat, canvas: Option<CanvasElement>)
      modifies this
      ensures State() == ImageLoad(old(State()), width, height, canvas)
    {
      originalWidth := width;
      originalHeight := height;
      imageLoaded := true;
      rotation := 0;
      if canvas.Some? {
        var initialScale := 1.0;
        var scaledWidth := width as real * initialScale;
        var scaledHeight := height as real * initialScale;
        var x := (canvas.value.width as real - scaledWidth) / 2.0;
        var y := (canvas.value.height as real - scaledHeight) / 2.0;
        scale := initialScale;
        imagePosition := Point(x, y);
      }
    }

    /** The menu's crop-size callback. */
    method HandlePositionChange(width: ParsedInt, height: ParsedInt)
      modifies this
      ensures State() == CropSizeChange(old(State()), width, height)
    {
      cropWidth := width;
      cropHeight := height;
    }

    method HandleResetClick(canvas: Option<CanvasElement>)
      modifies this
      ensures State() == ResetClick(old(State()), canvas)
    {
      if imageLoaded && canvas.Some? {
        var scaledWidth := originalWidth as real * scale;
        var scaledHeight := originalHeight as real * scale;
        var x := (canvas.value.width as real - scaledWidth) / 2.0;
        var y := (canvas.value.height as real - scaledHeight) / 2.0;
        imagePosition := Point(x, y);
      }
    }

    method HandleRemoveImage()
      modifies this
      ensures State() == RemoveImage(old(State()))
    {
      imageLoaded := false;
      originalWidth := 0;
      originalHeight := 0;
      imageData := None;
    }

    /** Whether the copy is started (it is not without an image). */
    method HandleCopyClick() returns (started: bool)
      ensures started <==> ExportStarts(State())
    {
      started := imageLoaded;
    }

    /**
     * Whether the download is started (it is not without an image). The guard is the same
     * as HandleCopyClick's: the source keeps the two handlers apart.
     */
    method HandleDownloadClick() returns (started: bool)
      ensures started <==> ExportStarts(State())
    {
      started := imageLoaded;
    }

    method HandleKeyDown(key: string, ctrlKey: bool, canvas: Option<CanvasElement>)
      returns (copyStarted: bool, downloadStarted: bool)
      modifies this
      ensures (State(), copyStarted, downloadStarted) == KeyDown(old(State()), key, ctrlKey, canvas)
    {
      copyStarted := false;
      downloadStarted := false;
      if key == "h" || key == "H" {
        showHelp := !showHelp;
      }
      if ctrlKey && key == "c" {
        copyStarted := HandleCopyClick();
      }
      if ctrlKey && key == "s" {
        downloadStarted := HandleDownloadClick();
      }
      if key == "r" || key == "R" {
        HandleResetClick(canvas);
      }
    }

    /** The canvas's position callback (drag and wheel zoom). */
    method SetImagePosition(p: Point)
      modifies this
      ensures State() == old(State()).(imagePosition := p)
    {
      imagePosition := p;
    }

    /** The canvas's scale callback (wheel zoom). */
    method SetScale(s: real)
      modifies this
      ensures State() == old(State()).(scale := s)
    {
      scale := s;
    }

    /** The menu's help button. */
    method ShowHelp()
      modifies this
      ensures State() == old(State()).(showHelp := true)
    {
      showHelp := true;
    }

    /** The menu's sensitivity callback. */
    method SetZoomSensitivity(v: ParsedInt)
      modifies this
      ensures State() == old(State()).(zoomSensitivity := v)
    {
      zoomSensitivity := v;
    }
  }
}
