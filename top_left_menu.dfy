/**
 * The crop-size menu: two text fields W and H, a zoom-sensitivity slider, and the
 * browser key/value store they persist to. Every handler sets its field, writes the
 * store and notifies the page, in that order.
 */
module CropSizeMenu {
  import opened Wrappers
  import opened JsText

  const LastXKey: string := "croppy_lastX"
  const LastYKey: string := "croppy_lastY"
  const ZoomKey: string := "croppy_zoomSensitivity"

  const DefaultWidthText: string := "832"
  const DefaultHeightText: string := "1216"
  const DefaultSensitivity: int := 10

  type Store = map<string, string>

  /** One call of the page's crop-size callback; either side may be NaN (`None`). */
  datatype CropSize = CropSize(width: ParsedInt, height: ParsedInt)

  /** The menu's state: the two field strings, the slider value and the store. */
  datatype MenuState = MenuState(x: string, y: string, zoomSensitivity: ParsedInt, store: Store)

  /**
   * A field's first value: "0" while rendering outside a browser; otherwise the stored
   * string when there is one, else the fallback.
   */
  function InitialField(store: Store, key: string, fallback: string, inBrowser: bool): (v: string)
    ensures !inBrowser ==> v == "0"
    ensures inBrowser && key in store ==> v == store[key]
    ensures inBrowser && key !in store ==> v == fallback
  {
    if !inBrowser then "0" else if key in store then store[key] else fallback
  }

  function Initial(store: Store, inBrowser: bool): (s: MenuState)
    ensures s.store == store && s.zoomSensitivity == Some(DefaultSensitivity)
    ensures s.x == InitialField(store, LastXKey, DefaultWidthText, inBrowser)
    ensures s.y == InitialField(store, LastYKey, DefaultHeightText, inBrowser)
  {
    MenuState(InitialField(store, LastXKey, DefaultWidthText, inBrowser),
              InitialField(store, LastYKey, DefaultHeightText, inBrowser),
              Some(DefaultSensitivity), store)
  }

  /**
   * The mount effect: the crop size is sent only when BOTH keys are stored, as the
   * `parseInt` of each; a stored sensitivity replaces the slider value and is sent on.
   */
  function OnMount(s: MenuState): (r: (MenuState, Option<CropSize>, Option<ParsedInt>))
    ensures r.1.Some? <==> LastXKey in s.store && LastYKey in s.store
    ensures r.1.Some? ==> r.1.value == CropSize(ParseInt(s.store[LastXKey]), ParseInt(s.store[LastYKey]))
    ensures r.2.Some? <==> ZoomKey in s.store
    ensures r.2.Some? ==> r.2.value == ParseInt(s.store[ZoomKey]) && r.0.zoomSensitivity == r.2.value
    ensures r.2.None? ==> r.0 == s
    ensures r.0.x == s.x && r.0.y == s.y && r.0.store == s.store
  {
    var cropSize :=
      if LastXKey in s.store && LastYKey in s.store
      then Some(CropSize(ParseInt(s.store[LastXKey]), ParseInt(s.store[LastYKey])))
      else None;
    if ZoomKey in s.store then
      var zoom := ParseInt(s.store[ZoomKey]);
      (s.(zoomSensitivity := zoom), cropSize, Some(zoom))
    else (s, cropSize, None)
  }

  /** Input the field handlers persist: empty, or a string `parseInt` reads a number from. */
  predicate Accepted(value: string) {
    value == "" || ParseInt(value).Some?
  }

  /** `value || '0'`: the empty string reads as "0". */
  function OrZero(value: string): (r: string)
    ensures r != ""
    ensures value == "" ==> r == "0"
    ensures value != "" ==> r == value
  {
    if value == "" then "0" else value
  }

  /**
   * A change of one field to `value`, with `other` the other field's current string.
   * Yields the string to store under the field's key (if any) and the notification
   * as (this field's number, other field's number).
   */
  function FieldChange(value: string, other: string): (r: (Option<string>, Option<(ParsedInt, ParsedInt)>))
    ensures r.0.Some? <==> Accepted(value)
    ensures r.0.Some? ==> r.0.value == OrZero(value)
    ensures r.1.Some? <==> value != "" && ParseInt(value).Some?
    ensures r.1.Some? ==> r.1.value == (ParseInt(value), ParseInt(OrZero(other)))
  {
    if Accepted(value) then
      (Some(OrZero(value)), if value != "" then Some((ParseInt(value), ParseInt(OrZero(other)))) else None)
    else (None, None)
  }

  function StoreIf(store: Store, key: string, v: Option<string>): (r: Store)
    ensures v.None? ==> r == store
    ensures v.Some? ==> r == store[key := v.value]
  {
    if v.Some? then store[key := v.value] else store
  }

  /** `handleXChange`: W is set whatever the input; store and page follow `FieldChange`. */
  function XChange(s: MenuState, value: string): (r: (MenuState, Option<CropSize>))
    ensures r.0.x == value && r.0.y == s.y && r.0.zoomSensitivity == s.zoomSensitivity
    ensures r.0.store == StoreIf(s.store, LastXKey, FieldChange(value, s.y).0)
    ensures r.1.Some? <==> FieldChange(value, s.y).1.Some?
    ensures r.1.Some? ==> r.1.value == CropSize(FieldChange(value, s.y).1.value.0, FieldChange(value, s.y).1.value.1)
  {
    var change := FieldChange(value, s.y);
    (s.(x := value, store := StoreIf(s.store, LastXKey, change.0)),
     if change.1.Some? then Some(CropSize(change.1.value.0, change.1.value.1)) else None)
  }

  /** `handleYChange`: the mirror image of `XChange`; the notification is (W, H). */
  function YChange(s: MenuState, value: string): (r: (MenuState, Option<CropSize>))
    ensures r.0.y == value && r.0.x == s.x && r.0.zoomSensitivity == s.zoomSensitivity
    ensures r.0.store == StoreIf(s.store, LastYKey, FieldChange(value, s.x).0)
    ensures r.1.Some? <==> FieldChange(value, s.x).1.Some?
    ensures r.1.Some? ==> r.1.value == CropSize(FieldChange(value, s.x).1.value.1, FieldChange(value, s.x).1.value.0)
  {
    var change := FieldChange(value, s.x);
    (s.(y := value, store := StoreIf(s.store, LastYKey, change.0)),
     if change.1.Some? then Some(CropSize(change.1.value.1, change.1.value.0)) else None)
  }

  /** `handlePresetSelect`: both fields and both keys get the printed numbers; one notification. */
  function PresetSelect(s: MenuState, width: ParsedInt, height: ParsedInt): (r: (MenuState, CropSize))
    ensures r.0.x == NumberToString(width) && r.0.y == NumberToString(height)
    ensures r.0.store == s.store[LastXKey := NumberToString(width)][LastYKey := NumberToString(height)]
    ensures r.0.zoomSensitivity == s.zoomSensitivity
    ensures r.1 == CropSize(width, height)
  {
    var w := NumberToString(width);
    var h := NumberToString(height);
    (s.(x := w, y := h, store := s.store[LastXKey := w][LastYKey := h]), CropSize(width, height))
  }

  /** `handleZoomSensitivityChange`: the slider value is parsed, stored as printed, and sent on. */
  function ZoomChange(s: MenuState, value: string): (r: (MenuState, ParsedInt))
    ensures r.1 == ParseInt(value) && r.0.zoomSensitivity == r.1
    ensures r.0.store == s.store[ZoomKey := NumberToString(r.1)]
    ensures r.0.x == s.x && r.0.y == s.y
  {
    var v := ParseInt(value);
    (s.(zoomSensitivity := v, store := s.store[ZoomKey := NumberToString(v)]), v)
  }

  // ---------------------------------------------------------------------------
  // Properties

  /** A field change always shows the typed string, and an invalid one changes nothing else. */
  lemma InvalidInputOnlyUpdatesField(s: MenuState, value: string)
    requires ParseInt(value).None? && value != ""
    ensures XChange(s, value) == (s.(x := value), None)
    ensures YChange(s, value) == (s.(y := value), None)
  {
  }

  /** Clearing a field stores "0" and sends nothing. */
  lemma EmptyInputStoresZero(s: MenuState)
    ensures XChange(s, "") == (s.(x := "", store := s.store[LastXKey := "0"]), None)
    ensures YChange(s, "") == (s.(y := "", store := s.store[LastYKey := "0"]), None)
  {
    ParseIntOfEmpty();
  }

  /** A number typed into W is sent with H's number, and H's number is NaN when H holds junk. */
  lemma ValidInputNotifiesWithOtherField(s: MenuState, value: string)
    requires value != "" && ParseInt(value).Some?
    ensures XChange(s, value).1 == Some(CropSize(ParseInt(value), ParseInt(OrZero(s.y))))
    ensures ParseInt(OrZero(s.y)).None? ==> XChange(s, value).1.value.height.None?
  {
  }

  /** The value stored for an accepted field input always reads back as a number. */
  lemma AcceptedInputStoresANumber(value: string, other: string)
    requires Accepted(value)
    ensures ParseInt(FieldChange(value, other).0.value).Some?
    ensures value == "" ==> ParseInt(FieldChange(value, other).0.value) == Some(0)
  {
    if value == "" {
      ParseIntOfIntToString(0);
      assert IntToString(0) == "0";
    }
  }

  /**
   * After a valid W change, a reload notifies W as it was notified before the reload
   * (provided H is stored too).
   */
  lemma ReloadRestoresTypedWidth(s: MenuState, value: string, inBrowser: bool)
    requires value != "" && ParseInt(value).Some? && LastYKey in s.store
    ensures var after := XChange(s, value).0;
      OnMount(Initial(after.store, inBrowser)).1 == Some(CropSize(ParseInt(value), ParseInt(s.store[LastYKey])))
  {
    var after := XChange(s, value).0;
    assert FieldChange(value, s.y).0 == Some(value);
    assert after.store == s.store[LastXKey := value];
    assert after.store[LastYKey] == s.store[LastYKey];
  }

  /**
   * After a preset is chosen, a reload shows the same strings and notifies the same
   * sizes, NaN included: `parseInt(n.toString())` gives `n` back.
   */
  lemma ReloadRestoresPreset(s: MenuState, width: ParsedInt, height: ParsedInt)
    ensures var after := PresetSelect(s, width, height).0;
      var reloaded := Initial(after.store, true);
      reloaded.x == after.x && reloaded.y == after.y
      && OnMount(reloaded).1 == Some(CropSize(width, height))
  {
    ParseIntOfNumberToString(width);
    ParseIntOfNumberToString(height);
  }

  /** After a slider change, a reload restores the same sensitivity and sends it on. */
  lemma ReloadRestoresSensitivity(s: MenuState, value: string, inBrowser: bool)
    ensures var after := ZoomChange(s, value).0;
      var r := OnMount(Initial(after.store, inBrowser));
      r.2 == Some(ParseInt(value)) && r.0.zoomSensitivity == ParseInt(value)
  {
    ParseIntOfNumberToString(ParseInt(value));
  }

  /** Without stored values the fields show 832 and 1216, and mount sends nothing. */
  lemma FreshBrowserDefaults()
    ensures Initial(map[], true).x == "832" && Initial(map[], true).y == "1216"
    ensures OnMount(Initial(map[], true)) == (Initial(map[], true), None, None)
  {
  }

  // ---------------------------------------------------------------------------
  // The component

  class TopLeftMenu {
    var x: string
    var y: string
    var zoomSensitivity: ParsedInt
    /** The browser's local storage. */
    var store: Store

    function State(): MenuState
      reads this
    {
      MenuState(x, y, zoomSensitivity, store)
    }

    /** The `useState` initialisers; `inBrowser` is false during server rendering. */
    constructor(saved: Store, inBrowser: bool)
      ensures State() == Initial(saved, inBrowser)
    {
      x := InitialField(saved, LastXKey, DefaultWidthText, inBrowser);
      y := InitialField(saved, LastYKey, DefaultHeightText, inBrowser);
      zoomSensitivity := Some(DefaultSensitivity);
      store := saved;
    }

    /** The mount effect; returns the calls made to the crop-size and sensitivity callbacks. */
    method Mount() returns (cropSize: Option<CropSize>, zoom: Option<ParsedInt>)
      modifies this
      ensures (State(), cropSize, zoom) == OnMount(old(State()))
    {
      ghost var expected := OnMount(State());
      var savedX := if LastXKey in store then Some(store[LastXKey]) else None;
      var savedY := if LastYKey in store then Some(store[LastYKey]) else None;
      var savedZoom := if ZoomKey in store then Some(store[ZoomKey]) else None;
      cropSize := None;
      if savedX.Some? && savedY.Some? {
        cropSize := Some(CropSize(ParseInt(savedX.value), ParseInt(savedY.value)));
      }
      zoom := None;
      if savedZoom.Some? {
        var zoomValue := ParseInt(savedZoom.value);
        zoomSensitivity := zoomValue;
        zoom := Some(zoomValue);
      }
      assert cropSize == expected.1 && zoom == expected.2;
      assert State() == expected.0;
    }

    method HandleXChange(value: string) returns (notify: Option<CropSize>)
      modifies this
      ensures (State(), notify) == XChange(old(State()), value)
    {
      ghost var change := FieldChange(value, y);
      x := value;
      notify := None;
      var parsed := ParseInt(value);
      if value == "" || parsed.Some? {
        store := store[LastXKey := OrZero(value)];
        if value != "" {
          notify := Some(CropSize(parsed, ParseInt(OrZero(y))));
        }
      }
      assert store == StoreIf(old(store), LastXKey, change.0);
    }

    method HandleYChange(value: string) returns (notify: Option<CropSize>)
      modifies this
      ensures (State(), notify) == YChange(old(State()), value)
    {
      ghost var change := FieldChange(value, x);
      y := value;
      notify := None;
      var parsed := ParseInt(value);
      if value == "" || parsed.Some? {
        store := store[LastYKey := OrZero(value)];
        if value != "" {
          notify := Some(CropSize(ParseInt(OrZero(x)), parsed));
        }
      }
      assert store == StoreIf(old(store), LastYKey, change.0);
    }

    method HandlePresetSelect(width: ParsedInt, height: ParsedInt) returns (notify: CropSize)
      modifies this
      ensures (State(), notify) == PresetSelect(old(State()), width, height)
    {
      x := NumberToString(width);
      y := NumberToString(height);
      store := store[LastXKey := NumberToString(width)];
      store := store[LastYKey := NumberToString(height)];
      notify := CropSize(width, height);
    }

    method HandleZoomSensitivityChange(value: string) returns (notify: ParsedInt)
      modifies this
      ensures (State(), notify) == ZoomChange(old(State()), value)
    {
      var v := ParseInt(value);
      zoomSensitivity := v;
      store := store[ZoomKey := NumberToString(v)];
      notify := v;
    }
  }
}
