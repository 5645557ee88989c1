/**
 * The crop-size presets list: four built-in presets, custom ones added by the user,
 * deletion, drag-and-drop reordering, and persistence of the custom presets only.
 */
module Presets {
  import opened Wrappers
  import opened JsText

  /** A preset; the sizes come from `parseInt` and may be NaN (`None`). */
  datatype Preset = Preset(id: string, name: string, width: ParsedInt, height: ParsedInt)

  const DefaultPrefix: string := "preset-"
  const CustomPrefix: string := "custom-"

  const DefaultPresets: seq<Preset> := [
    Preset("preset-portrait", "Portrait", Some(832), Some(1216)),
    Preset("preset-grok-portrait", "Grok Portrait", Some(832), Some(1248)),
    Preset("preset-grok-square", "Grok Square", Some(960), Some(960)),
    Preset("preset-grok-landscape", "Grok Landscape", Some(640), Some(480))
  ]

  predicate IsDefaultId(id: string) {
    StartsWith(id, DefaultPrefix)
  }

  // ---------------------------------------------------------------------------
  // Filtering (`Array.prototype.filter`)

  function Filter(s: seq<Preset>, keep: Preset -> bool): (r: seq<Preset>)
    ensures |r| <= |s|
    ensures forall p :: p in r <==> p in s && keep(p)
  {
    if s == [] then []
    else (if keep(s[0]) then [s[0]] else []) + Filter(s[1..], keep)
  }

  /** Filtering keeps relative order: it distributes over concatenation. */
  lemma {:induction false} FilterAppend(a: seq<Preset>, b: seq<Preset>, keep: Preset -> bool)
    ensures Filter(a + b, keep) == Filter(a, keep) + Filter(b, keep)
  {
    if a == [] {
      assert a + b == b;
    } else {
      assert (a + b)[1..] == a[1..] + b;
      FilterAppend(a[1..], b, keep);
    }
  }

  /** Filtering a list every element of which passes leaves it unchanged. */
  lemma {:induction false} FilterKeepsAll(s: seq<Preset>, keep: Preset -> bool)
    requires forall i :: 0 <= i < |s| ==> keep(s[i])
    ensures Filter(s, keep) == s
  {
    if s != [] {
      FilterKeepsAll(s[1..], keep);
    }
  }

  /** Filtering a list no element of which passes leaves nothing. */
  lemma {:induction false} FilterDropsAll(s: seq<Preset>, keep: Preset -> bool)
    requires forall i :: 0 <= i < |s| ==> !keep(s[i])
    ensures Filter(s, keep) == []
  {
    if s != [] {
      FilterDropsAll(s[1..], keep);
    }
  }

  // ---------------------------------------------------------------------------
  // Persistence

  function IsCustom(p: Preset): bool {
    !IsDefaultId(p.id)
  }

  /** What is written to storage: the presets whose id does not start with `preset-`, in order. */
  function Persisted(presets: seq<Preset>): (r: seq<Preset>)
    ensures |r| <= |presets|
    ensures forall p :: p in r <==> p in presets && !IsDefaultId(p.id)
  {
    Filter(presets, IsCustom)
  }

  /**
   * Loading: the defaults followed by the saved custom presets. `None` stands for no
   * saved value, an empty one, or one that failed to parse: the defaults stay.
   */
  function Load(saved: Option<seq<Preset>>): (r: seq<Preset>)
    ensures |r| >= |DefaultPresets| && r[..|DefaultPresets|] == DefaultPresets
    ensures saved.None? ==> r == DefaultPresets
    ensures saved.Some? ==> r[|DefaultPresets|..] == saved.value
  {
    match saved
    case None => DefaultPresets
    case Some(custom) => DefaultPresets + custom
  }

  /** Every default id starts with `preset-`. */
  lemma DefaultIdsArePrefixed(i: nat)
    requires i < |DefaultPresets|
    ensures IsDefaultId(DefaultPresets[i].id)
  {
    assert DefaultPresets[i].id[..|DefaultPrefix|] == DefaultPrefix;
  }

  /** No default preset is ever persisted. */
  lemma PersistedDefaultsEmpty()
    ensures Persisted(DefaultPresets) == []
  {
    forall i | 0 <= i < |DefaultPresets| ensures !IsCustom(DefaultPresets[i]) {
      DefaultIdsArePrefixed(i);
    }
    FilterDropsAll(DefaultPresets, IsCustom);
  }

  /** The four defaults in order, then presets none of which has a `preset-` id. */
  predicate DefaultsThenCustom(presets: seq<Preset>) {
    |presets| >= |DefaultPresets| && presets[..|DefaultPresets|] == DefaultPresets
    && forall i :: |DefaultPresets| <= i < |presets| ==> !IsDefaultId(presets[i].id)
  }

  /**
   * Save-then-load restores the list exactly when it starts with the four defaults in
   * order and no later preset has a `preset-` id.
   */
  lemma SaveLoadRoundTrip(presets: seq<Preset>)
    ensures Load(Some(Persisted(presets))) == presets <==> DefaultsThenCustom(presets)
  {
    if Load(Some(Persisted(presets))) == presets {
      RestoredListIsDefaultsThenCustom(presets);
    }
    if DefaultsThenCustom(presets) {
      DefaultsThenCustomIsRestored(presets);
    }
  }

  lemma RestoredListIsDefaultsThenCustom(presets: seq<Preset>)
    requires Load(Some(Persisted(presets))) == presets
    ensures DefaultsThenCustom(presets)
  {
    var n := |DefaultPresets|;
    var custom := Persisted(presets);
    assert presets[n..] == custom;
    forall i | n <= i < |presets| ensures !IsDefaultId(presets[i].id) {
      assert presets[i] in custom;
    }
  }

  lemma DefaultsThenCustomIsRestored(presets: seq<Preset>)
    requires DefaultsThenCustom(presets)
    ensures Load(Some(Persisted(presets))) == presets
  {
    var n := |DefaultPresets|;
    var rest := presets[n..];
    assert presets == DefaultPresets + rest;
    forall i | 0 <= i < |rest| ensures IsCustom(rest[i]) {
      assert rest[i] == presets[n + i];
    }
    PersistedDefaultsThenCustom(rest);
  }

  /** Saving the defaults followed by custom presets writes exactly the custom ones. */
  lemma PersistedDefaultsThenCustom(custom: seq<Preset>)
    requires forall i :: 0 <= i < |custom| ==> IsCustom(custom[i])
    ensures Persisted(DefaultPresets + custom) == custom
  {
    FilterAppend(DefaultPresets, custom, IsCustom);
    PersistedDefaultsEmpty();
    FilterKeepsAll(custom, IsCustom);
  }

  // ---------------------------------------------------------------------------
  // Add, delete, select

  /**
   * The Save button of the add form: nothing when the trimmed name, the width or the
   * height is empty; otherwise a new `custom-<now>` preset at the end.
   */
  function AddPreset(presets: seq<Preset>, name: string, width: string, height: string, now: int)
    : (r: seq<Preset>)
    ensures AllWhitespace(name) || width == "" || height == "" ==> r == presets
    ensures !(AllWhitespace(name) || width == "" || height == "") ==>
      |r| == |presets| + 1 && r[..|presets|] == presets
      && r[|presets|] == Preset(CustomPrefix + IntToString(now), name, ParseInt(width), ParseInt(height))
  {
    TrimEmptyIffBlank(name);
    if Trim(name) == [] || width == "" || height == "" then presets
    else presets + [Preset(CustomPrefix + IntToString(now), name, ParseInt(width), ParseInt(height))]
  }

  /** A `custom-` id never starts with `preset-`, so an added preset is always persisted. */
  lemma AddedPresetIsPersisted(presets: seq<Preset>, name: string, width: string, height: string, now: int)
    requires !AllWhitespace(name) && width != "" && height != ""
    ensures Persisted(AddPreset(presets, name, width, height, now))
         == Persisted(presets) + [AddPreset(presets, name, width, height, now)[|presets|]]
  {
    var added := AddPreset(presets, name, width, height, now);
    var p := added[|presets|];
    assert added == presets + [p];
    FilterAppend(presets, [p], IsCustom);
    assert p.id[..|DefaultPrefix|][0] == 'c';
    assert Filter([p], IsCustom) == [p] by { assert [p][1..] == []; }
  }

  function IdIsNot(id: string): Preset -> bool {
    (p: Preset) => p.id != id
  }

  /** The delete confirmation: every preset with that id goes, the rest keep their order. */
  function DeletePreset(presets: seq<Preset>, id: string): (r: seq<Preset>)
    ensures forall p :: p in r <==> p in presets && p.id != id
    ensures forall i :: 0 <= i < |r| ==> r[i].id != id
  {
    Filter(presets, IdIsNot(id))
  }

  /** Deleting distributes over concatenation: the survivors keep their relative order. */
  lemma DeletePreservesOrder(a: seq<Preset>, b: seq<Preset>, id: string)
    ensures DeletePreset(a + b, id) == DeletePreset(a, id) + DeletePreset(b, id)
  {
    FilterAppend(a, b, IdIsNot(id));
  }

  /** Deleting a default is not persisted: after a reload the default is back. */
  lemma DeletedDefaultReturnsOnReload(custom: seq<Preset>, i: nat)
    requires i < |DefaultPresets|
    requires forall j :: 0 <= j < |custom| ==> IsCustom(custom[j])
    ensures Load(Some(Persisted(DeletePreset(DefaultPresets + custom, DefaultPresets[i].id))))
         == DefaultPresets + custom
  {
    var id := DefaultPresets[i].id;
    var d := DeletePreset(DefaultPresets, id);
    DeletePreservesOrder(DefaultPresets, custom, id);
    CustomSurvivesDefaultDelete(custom, i);
    assert DeletePreset(DefaultPresets + custom, id) == d + custom;
    FilterAppend(d, custom, IsCustom);
    DeletedDefaultsNotPersisted(id);
    FilterKeepsAll(custom, IsCustom);
    assert Persisted(d + custom) == custom;
  }

  /** Deleting a default id leaves the custom presets alone. */
  lemma CustomSurvivesDefaultDelete(custom: seq<Preset>, i: nat)
    requires i < |DefaultPresets|
    requires forall j :: 0 <= j < |custom| ==> IsCustom(custom[j])
    ensures DeletePreset(custom, DefaultPresets[i].id) == custom
  {
    DefaultIdsArePrefixed(i);
    FilterKeepsAll(custom, IdIsNot(DefaultPresets[i].id));
  }

  /** Whatever deleting leaves of the defaults is not persisted. */
  lemma DeletedDefaultsNotPersisted(id: string)
    ensures Persisted(DeletePreset(DefaultPresets, id)) == []
  {
    var d := DeletePreset(DefaultPresets, id);
    forall j | 0 <= j < |d| ensures !IsCustom(d[j]) {
      assert d[j] in DefaultPresets;
      var k :| 0 <= k < |DefaultPresets| && DefaultPresets[k] == d[j];
      DefaultIdsArePrefixed(k);
    }
    FilterDropsAll(d, IsCustom);
  }

  /** Selecting a preset forwards its width and height. */
  function SelectPreset(p: Preset): (r: (ParsedInt, ParsedInt))
    ensures r.0 == p.width && r.1 == p.height
  {
    (p.width, p.height)
  }

  // ---------------------------------------------------------------------------
  // Drag-and-drop reorder

  /** `findIndex` by id: the first match, or -1. */
  function FindIndex(presets: seq<Preset>, id: string): (i: int)
    ensures -1 <= i < |presets|
    ensures i >= 0 ==> presets[i].id == id && forall j :: 0 <= j < i ==> presets[j].id != id
    ensures i == -1 <==> forall j :: 0 <= j < |presets| ==> presets[j].id != id
  {
    if presets == [] then -1
    else if presets[0].id == id then 0
    else
      var k := FindIndex(presets[1..], id);
      if k == -1 then -1 else k + 1
  }

  /** How `splice` reads its start argument: negative counts from the end; clamped to [0, len]. */
  function SpliceStart(start: int, len: nat): (k: nat)
    ensures k <= len
    ensures 0 <= start <= len ==> k == start
    ensures -(len as int) <= start < 0 ==> k == len + start
    ensures start < -(len as int) ==> k == 0
    ensures start > len ==> k == len
  {
    if start < 0 then (if len + start < 0 then 0 else len + start)
    else if start > len then len else start
  }

  function RemoveAt(s: seq<Preset>, k: nat): (r: seq<Preset>)
    requires k < |s|
    ensures |r| == |s| - 1
  {
    s[..k] + s[k + 1..]
  }

  function InsertAt(s: seq<Preset>, k: nat, x: Preset): (r: seq<Preset>)
    requires k <= |s|
    ensures |r| == |s| + 1 && r[k] == x
    ensures r[..k] == s[..k] && r[k + 1..] == s[k..]
  {
    s[..k] + [x] + s[k..]
  }

  predicate HasId(presets: seq<Preset>, id: string) {
    exists i :: 0 <= i < |presets| && presets[i].id == id
  }

  /** Index `splice(draggedIndex, 1)` removes. */
  function DraggedSlot(presets: seq<Preset>, dragged: string): (k: nat)
    requires |presets| > 0
    ensures k < |presets|
  {
    SpliceStart(FindIndex(presets, dragged), |presets|)
  }

  /** Index `splice(targetIndex, 0, removed)` inserts at, in the shortened list. */
  function TargetSlot(presets: seq<Preset>, target: string): (k: nat)
    requires HasId(presets, target)
    ensures k <= |presets| - 1
    ensures k == FindIndex(presets, target)
  {
    SpliceStart(FindIndex(presets, target), |presets| - 1)
  }

  predicate DropIgnored(dragged: Option<string>, target: string) {
    dragged.None? || dragged.value == "" || dragged.value == target
  }

  /**
   * The list after a drop of `dragged` onto `target`: nothing without a (non-empty)
   * dragged id or when both ids agree; otherwise the dragged preset is removed and put
   * back at the target's original index.
   */
  function Dropped(presets: seq<Preset>, dragged: Option<string>, target: string): (r: seq<Preset>)
    requires HasId(presets, target)
    ensures |r| == |presets|
    ensures DropIgnored(dragged, target) ==> r == presets
    ensures !DropIgnored(dragged, target) ==>
      r[TargetSlot(presets, target)] == presets[DraggedSlot(presets, dragged.value)]
  {
    if DropIgnored(dragged, target) then presets
    else
      var d := DraggedSlot(presets, dragged.value);
      InsertAt(RemoveAt(presets, d), TargetSlot(presets, target), presets[d])
  }

  lemma RemoveAtElements(s: seq<Preset>, k: nat)
    requires k < |s|
    ensures forall m :: 0 <= m < |s| - 1 ==> RemoveAt(s, k)[m] == if m < k then s[m] else s[m + 1]
  {
    var r := RemoveAt(s, k);
    forall m | 0 <= m < |s| - 1 ensures r[m] == if m < k then s[m] else s[m + 1] {
      if m < k {
        assert r[m] == s[..k][m];
      } else {
        assert r[m] == s[k + 1..][m - k];
      }
    }
  }

  lemma MultisetRemoveInsert(s: seq<Preset>, d: nat, t: nat)
    requires d < |s| && t <= |s| - 1
    ensures multiset(InsertAt(RemoveAt(s, d), t, s[d])) == multiset(s)
  {
    var rest := RemoveAt(s, d);
    var x := s[d];
    calc {
      multiset(s);
      { assert s == s[..d] + [x] + s[d + 1..]; }
      multiset(s[..d] + [x] + s[d + 1..]);
      multiset(s[..d]) + multiset{x} + multiset(s[d + 1..]);
      multiset(s[..d] + s[d + 1..]) + multiset{x};
      multiset(rest) + multiset{x};
      { assert rest == rest[..t] + rest[t..]; }
      multiset(rest[..t]) + multiset(rest[t..]) + multiset{x};
      multiset(rest[..t] + [x] + rest[t..]);
    }
  }

  /** A drop is a permutation of the list. */
  lemma DropPermutes(presets: seq<Preset>, dragged: Option<string>, target: string)
    requires HasId(presets, target)
    ensures |Dropped(presets, dragged, target)| == |presets|
    ensures multiset(Dropped(presets, dragged, target)) == multiset(presets)
  {
    if !DropIgnored(dragged, target) {
      MultisetRemoveInsert(presets, DraggedSlot(presets, dragged.value), TargetSlot(presets, target));
    }
  }

  /**
   * When the dragged id is present, it lands at the target's original index and the other
   * presets keep their relative order.
   */
  lemma DropLandsAtTarget(presets: seq<Preset>, dragged: string, target: string)
    requires HasId(presets, target) && HasId(presets, dragged) && dragged != "" && dragged != target
    ensures var r := Dropped(presets, Some(dragged), target);
      var t := FindIndex(presets, target);
      r[t] == presets[FindIndex(presets, dragged)] && r[t].id == dragged
      && RemoveAt(r, t) == RemoveAt(presets, FindIndex(presets, dragged))
  {
    var d := DraggedSlot(presets, dragged);
    var t := TargetSlot(presets, target);
    assert d == FindIndex(presets, dragged);
    var rest := RemoveAt(presets, d);
    assert Dropped(presets, Some(dragged), target) == InsertAt(rest, t, presets[d]);
    RemoveAtInsertAt(rest, t, presets[d]);
  }

  /** Removing what was just inserted at `k` gives the list back. */
  lemma RemoveAtInsertAt(s: seq<Preset>, k: nat, x: Preset)
    requires k <= |s|
    ensures RemoveAt(InsertAt(s, k, x), k) == s
  {
    var r := InsertAt(s, k, x);
    assert RemoveAt(r, k) == r[..k] + r[k + 1..];
    assert s == s[..k] + s[k..];
  }

  /**
   * A stale dragged id (no longer in the list) reads as index -1, and `splice(-1, 1)`
   * takes the LAST preset: that one moves to the target.
   */
  lemma StaleDragMovesLastPreset(presets: seq<Preset>, dragged: string, target: string)
    requires HasId(presets, target) && !HasId(presets, dragged) && dragged != ""
    ensures Dropped(presets, Some(dragged), target)[FindIndex(presets, target)] == presets[|presets| - 1]
  {
    assert FindIndex(presets, dragged) == -1;
    var d := DraggedSlot(presets, dragged);
    assert d == |presets| - 1;
    var t := TargetSlot(presets, target);
    assert Dropped(presets, Some(dragged), target) == InsertAt(RemoveAt(presets, d), t, presets[d]);
  }

  /**
   * `handleDrop`: a copy of the list loses the dragged preset (`splice(draggedIndex, 1)`)
   * and gets it back at the target's index (`splice(targetIndex, 0, removed)`).
   */
  method HandleDrop(presets: seq<Preset>, dragged: Option<string>, target: string)
    returns (updated: seq<Preset>)
    requires HasId(presets, target)
    ensures updated == Dropped(presets, dragged, target)
    ensures multiset(updated) == multiset(presets)
  {
    DropPermutes(presets, dragged, target);
    if dragged.None? || dragged.value == "" || dragged.value == target {
      return presets;
    }
    var draggedIndex := FindIndex(presets, dragged.value);
    var targetIndex := FindIndex(presets, target);
    updated := presets;
    var d := SpliceStart(draggedIndex, |updated|);
    assert d == DraggedSlot(presets, dragged.value);
    var removed := updated[d];
    updated := updated[..d] + updated[d + 1..];
    assert updated == RemoveAt(presets, d);
    var t := SpliceStart(targetIndex, |updated|);
    assert t == TargetSlot(presets, target);
    updated := updated[..t] + [removed] + updated[t..];
  }
}
