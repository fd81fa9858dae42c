/**
 * The presenter behind the grid of solid colours ("minimal" wallpapers).
 *
 * Adapter position 0 is the "add colour" tile; position p > 0 shows colour
 * p - 1 of the colour list, and selecting it records the key p - 1. The
 * selection drives a contextual action bar (CAB) and a bottom panel, and
 * deleting the selection is refused while fewer than twenty colours would
 * remain.
 *
 * Every operation is stated twice: as a pure step function on MinimalState
 * (the specification, about which the lemmas speak) and as a method of
 * MinimalPresenter that updates the fields in place and is proved to agree
 * with that function. Calls on the view are returned as a list.
 */
module Minimal {

  const MinimumScrollDist: int := 15
  const InitialSize: int := 0
  const InitialOffset: int := 1
  const MinimumColorListSize: int := 20
  const FirstElementIndex: int := 1

  datatype MultiColorImageType = Material | Gradient | Plasma

  /** Position of each option in the type spinner, in declaration order. */
  function Ordinal(t: MultiColorImageType): int {
    match t
    case Material => 0
    case Gradient => 1
    case Plasma => 2
  }

  /** Calls the presenter makes on the fragment. */
  datatype ViewCall =
    | UpdateItemView(index: int)
    | UpdateAllItems
    | ShowCab(size: int)
    | HideCab
    | ShowBottomPanelWithAnimation
    | HideBottomLayoutWithAnimation
    | StartSelection(position: int)
    | RemoveItemView(key: int)
    | ClearCabIfActive
    | ShowDeselectBeforeDeletionMessage(count: int)
    | ShowDeleteColorsErrorMessage
    | ShowUnableToGetColorsErrorMessage
    | ShowGenericErrorMessage

  /** Why loading the colour list failed. */
  datatype ColorsError = UnableToGetSolidColors | OtherColorsError

  /**
   * The presenter's fields. The source keeps the selection in a hash map whose
   * values are always `true`; only its key set matters.
   */
  datatype MinimalState = MinimalState(
    selected: set<int>,
    selectionSize: int,
    bottomPanelEnabled: bool,
    forceSmoothScroll: bool,
    colorList: seq<string>,
    imageType: MultiColorImageType)

  const InitialState: MinimalState := MinimalState({}, InitialSize, false, false, [], Material)

  /** A new state and the view calls issued on the way to it, in order. */
  datatype Step = Step(state: MinimalState, calls: seq<ViewCall>)

  /** The selection key of adapter position `index`. */
  function KeyOf(index: int): int {
    index - InitialOffset
  }

  /** Only the "add colour" tile at position 0 cannot be selected. */
  function IsItemSelectable(index: int): (r: bool)
    ensures r == (index != InitialSize)
  {
    index != InitialSize
  }

  predicate ItemSelected(s: MinimalState, index: int) {
    KeyOf(index) in s.selected
  }

  /** The selection with `key` flipped: added if absent, removed if present. */
  function Toggled(selected: set<int>, key: int): (r: set<int>)
    ensures key in r <==> key !in selected
    ensures forall k :: k != key ==> (k in r <==> k in selected)
  {
    if key !in selected then selected + {key} else selected - {key}
  }

  predicate NoShowCab(calls: seq<ViewCall>) {
    forall i :: 0 <= i < |calls| ==> !calls[i].ShowCab?
  }

  /**
   * The panel and CAB after the selection has become `size` items: none hides
   * both, one shows the CAB with the panel off, more show the CAB with the
   * panel on, the panel animating in only when it was off before.
   */
  function SelectionChange(s: MinimalState, index: int, size: int): (r: Step)
    ensures r.state == s.(selectionSize := size, bottomPanelEnabled := r.state.bottomPanelEnabled)
    ensures |r.calls| >= 1 && r.calls[0] == UpdateItemView(index)
    ensures size == InitialSize ==> !r.state.bottomPanelEnabled && HideCab in r.calls && NoShowCab(r.calls)
    ensures size == FirstElementIndex ==>
      !r.state.bottomPanelEnabled && ShowCab(size) in r.calls && HideCab !in r.calls
    ensures size > FirstElementIndex ==>
      r.state.bottomPanelEnabled && ShowCab(size) in r.calls && HideCab !in r.calls
    ensures ShowBottomPanelWithAnimation in r.calls <==> size > FirstElementIndex && !s.bottomPanelEnabled
    ensures HideBottomLayoutWithAnimation in r.calls <==>
      size == InitialSize || (size == FirstElementIndex && s.bottomPanelEnabled)
    ensures size < InitialSize ==> r == Step(s.(selectionSize := size), [UpdateItemView(index)])
  {
    var sized := s.(selectionSize := size);
    var head := [UpdateItemView(index)];
    if size == FirstElementIndex then
      if s.bottomPanelEnabled then
        Step(sized.(bottomPanelEnabled := false), head + [ShowCab(size), HideBottomLayoutWithAnimation])
      else
        Step(sized, head + [ShowCab(size)])
    else if size > FirstElementIndex && !s.bottomPanelEnabled then
      Step(sized.(bottomPanelEnabled := true), head + [ShowBottomPanelWithAnimation, ShowCab(size)])
    else if size > FirstElementIndex then
      Step(sized, head + [ShowCab(size)])
    else if size == InitialSize then
      Step(sized.(bottomPanelEnabled := false), head + [HideBottomLayoutWithAnimation, HideCab])
    else
      Step(sized, head)
  }

  /** Marks or unmarks one position, touching no other key. */
  function SelectItem(s: MinimalState, index: int, selected: bool): (r: Step)
    ensures r.state.selected == if selected then s.selected + {KeyOf(index)} else s.selected - {KeyOf(index)}
    ensures ItemSelected(r.state, index) == selected
    ensures r.state.selectionSize == |r.state.selected|
    ensures r == SelectionChange(s.(selected := r.state.selected), index, |r.state.selected|)
  {
    var sel := if selected then s.selected + {KeyOf(index)} else s.selected - {KeyOf(index)};
    SelectionChange(s.(selected := sel), index, |sel|)
  }

  function Toggle(s: MinimalState, index: int): (r: Step)
    ensures r.state.selected == Toggled(s.selected, KeyOf(index))
    ensures ItemSelected(r.state, index) == !ItemSelected(s, index)
    ensures r.state.selectionSize == |r.state.selected|
    ensures r.state.colorList == s.colorList && r.state.imageType == s.imageType
    ensures r == SelectionChange(s.(selected := r.state.selected), index, |r.state.selected|)
  {
    var sel := Toggled(s.selected, KeyOf(index));
    SelectionChange(s.(selected := sel), index, |sel|)
  }

  /** A tap toggles an item only while a selection is in progress. */
  function Click(s: MinimalState, index: int): (r: Step)
    ensures s.selected == {} ==> r == Step(s, [])
    ensures s.selected != {} ==> r == Toggle(s, index)
  {
    if |s.selected| == 0 then Step(s, []) else Toggle(s, index)
  }

  /** A long press toggles the item and then starts the selection mode. */
  function ImageLongClick(s: MinimalState, index: int): (r: Step)
    ensures r.state == Toggle(s, index).state
    ensures r.calls == Toggle(s, index).calls + [StartSelection(index)]
  {
    var t := Toggle(s, index);
    Step(t.state, t.calls + [StartSelection(index)])
  }

  /**
   * A scroll hides an enabled panel when moving down by more than the minimum
   * distance (unless a forced smooth scroll is running), and shows a disabled
   * one when moving up by more than it with several items selected. Every other
   * scroll changes nothing.
   */
  function Scroll(s: MinimalState, dy: int): (r: Step)
    ensures s.bottomPanelEnabled && dy > MinimumScrollDist && !s.forceSmoothScroll ==>
      r == Step(s.(bottomPanelEnabled := false), [HideBottomLayoutWithAnimation])
    ensures !s.bottomPanelEnabled && dy < -MinimumScrollDist && s.selectionSize > 1 ==>
      r == Step(s.(bottomPanelEnabled := true), [ShowBottomPanelWithAnimation])
    ensures r.state.bottomPanelEnabled != s.bottomPanelEnabled || r.calls != [] ==>
      (s.bottomPanelEnabled && dy > MinimumScrollDist && !s.forceSmoothScroll)
      || (!s.bottomPanelEnabled && dy < -MinimumScrollDist && s.selectionSize > 1)
    ensures r.state == s.(bottomPanelEnabled := r.state.bottomPanelEnabled)
  {
    if s.bottomPanelEnabled && dy > MinimumScrollDist && !s.forceSmoothScroll then
      Step(s.(bottomPanelEnabled := false), [HideBottomLayoutWithAnimation])
    else if !s.bottomPanelEnabled && dy < -MinimumScrollDist && s.selectionSize > 1 then
      Step(s.(bottomPanelEnabled := true), [ShowBottomPanelWithAnimation])
    else
      Step(s, [])
  }

  /**
   * How many more items must be deselected before deletion may start: zero
   * when at least twenty colours would remain, otherwise exactly the number
   * whose deselection leaves twenty.
   */
  function DeselectionShortfall(s: MinimalState): (r: int)
    ensures r >= 0
    ensures r == 0 <==> |s.colorList| - |s.selected| >= MinimumColorListSize
    ensures r > 0 ==> |s.colorList| - (|s.selected| - r) == MinimumColorListSize
  {
    if |s.colorList| - |s.selected| >= MinimumColorListSize then InitialSize
    else MinimumColorListSize - (|s.colorList| - |s.selected|)
  }

  /** Deselecting `m` items lets deletion start exactly when `m` reaches the reported shortfall. */
  lemma DeselectionShortfallIsMinimal(s: MinimalState, t: MinimalState)
    requires t.colorList == s.colorList && t.selected <= s.selected
    ensures DeselectionShortfall(t) == 0 <==>
      |s.selected - t.selected| >= DeselectionShortfall(s)
  {
    assert |s.selected| == |s.selected - t.selected| + |t.selected| by {
      assert s.selected == (s.selected - t.selected) + t.selected;
      assert (s.selected - t.selected) !! t.selected;
    }
  }

  /** What a tap on "delete" leads to. */
  datatype DeleteOutcome =
    | ModifyColors(colors: seq<string>, selected: set<int>)
    | AskToDeselect(call: ViewCall)

  /** Deletion is requested only when nobody has to be deselected first. */
  function DeleteMenuItemClick(s: MinimalState): (r: DeleteOutcome)
    ensures r.ModifyColors? <==> DeselectionShortfall(s) == 0
    ensures r.ModifyColors? ==> r.colors == s.colorList && r.selected == s.selected
    ensures r.AskToDeselect? ==> r.call == ShowDeselectBeforeDeletionMessage(DeselectionShortfall(s))
  {
    var n := DeselectionShortfall(s);
    if n == InitialSize then ModifyColors(s.colorList, s.selected)
    else AskToDeselect(ShowDeselectBeforeDeletionMessage(n))
  }

  predicate StrictlyDescending(keys: seq<int>) {
    forall i, j :: 0 <= i < j < |keys| ==> keys[i] > keys[j]
  }

  lemma NonEmptyHasElement(s: set<int>)
    requires s != {}
    ensures exists y :: y in s
  {
    if forall y :: y !in s {
      assert false;
    }
  }

  lemma {:induction false} MaxExists(s: set<int>)
    requires s != {}
    ensures exists m :: m in s && forall x :: x in s ==> x <= m
    decreases |s|
  {
    NonEmptyHasElement(s);
    var y :| y in s;
    if s - {y} != {} {
      MaxExists(s - {y});
      var m :| m in s - {y} && forall x :: x in s - {y} ==> x <= m;
      var top := if y > m then y else m;
      forall x | x in s ensures x <= top {
        if x != y { assert x in s - {y}; }
      }
      assert top in s;
    } else {
      assert s == {y};
      assert forall x :: x in s ==> x <= y;
    }
  }

  /** The keys of `s` from largest to smallest, each once. */
  ghost function Descending(s: set<int>): (r: seq<int>)
    ensures StrictlyDescending(r)
    ensures forall x :: x in r <==> x in s
    ensures |r| == |s|
    decreases |s|
  {
    if s == {} then []
    else
      MaxExists(s);
      var m :| m in s && forall x :: x in s ==> x <= m;
      var rest := Descending(s - {m});
      assert forall x :: x in rest ==> x < m;
      var r := [m] + rest;
      assert forall j :: 0 < j < |r| ==> r[j] == rest[j - 1] && r[j] in rest;
      [m] + rest
  }

  /** The head of a strictly descending sequence is its largest element, and occurs once. */
  lemma HeadIsLargest(a: seq<int>)
    requires StrictlyDescending(a) && a != []
    ensures forall x :: x in a ==> x <= a[0]
    ensures forall x :: x in a[1..] <==> x in a && x != a[0]
  {
    forall x | x in a ensures x <= a[0] {
      var k :| 0 <= k < |a| && a[k] == x;
    }
    forall x | x in a[1..] ensures x != a[0] {
      var k :| 0 <= k < |a[1..]| && a[1..][k] == x;
      assert a[k + 1] == x;
    }
    forall x | x in a && x != a[0] ensures x in a[1..] {
      var k :| 0 <= k < |a| && a[k] == x;
      assert a[1..][k - 1] == x;
    }
  }

  /** A set has only one strictly descending enumeration. */
  lemma {:induction false} DescendingUnique(a: seq<int>, b: seq<int>)
    requires StrictlyDescending(a) && StrictlyDescending(b)
    requires forall x :: x in a <==> x in b
    ensures a == b
    decreases |a|
  {
    if a != [] {
      assert a[0] in a;
      assert b != [];
    }
    if b != [] {
      assert b[0] in b;
      assert a != [];
    }
    if a != [] {
      HeadIsLargest(a);
      HeadIsLargest(b);
      assert a[0] == b[0];
      DescendingUnique(a[1..], b[1..]);
      assert a == [a[0]] + a[1..];
      assert b == [b[0]] + b[1..];
    }
  }

  /** `keys` with `x` inserted at its place in descending order, as a reverse-ordered tree map does. */
  function InsertDescending(keys: seq<int>, x: int): (r: seq<int>)
    requires StrictlyDescending(keys) && x !in keys
    ensures StrictlyDescending(r)
    ensures forall y :: y in r <==> y in keys || y == x
    ensures |r| == |keys| + 1
    decreases |keys|
  {
    if keys == [] || x > keys[0] then
      assert forall j :: 0 <= j < |keys| ==> keys[j] <= keys[0];
      [x] + keys
    else
      HeadIsLargest(keys);
      var rest := InsertDescending(keys[1..], x);
      assert x != keys[0];
      assert forall y :: y in rest ==> y < keys[0];
      var r := [keys[0]] + rest;
      assert forall j :: 0 < j < |r| ==> r[j] == rest[j - 1] && r[j] in rest;
      r
  }

  /** RemoveItemView for each key, in the order given. */
  function RemovalCalls(keys: seq<int>): (r: seq<ViewCall>)
    ensures |r| == |keys|
    ensures forall i :: 0 <= i < |keys| ==> r[i] == RemoveItemView(keys[i])
  {
    seq(|keys|, i requires 0 <= i < |keys| => RemoveItemView(keys[i]))
  }

  /**
   * The colours were deleted: the selection is cleared, the colour list is the
   * new one, and every previously selected key is removed from the view once,
   * largest first, before the CAB is cleared.
   */
  ghost function DeleteSucceeded(s: MinimalState, newColors: seq<string>): (r: Step)
    ensures r.state == s.(selected := {}, colorList := newColors)
    ensures |r.calls| == |s.selected| + 1 && r.calls[|s.selected|] == ClearCabIfActive
    ensures forall i, j :: 0 <= i < j < |s.selected| ==>
      r.calls[i].RemoveItemView? && r.calls[j].RemoveItemView? && r.calls[i].key > r.calls[j].key
    ensures forall k :: k in s.selected <==> RemoveItemView(k) in r.calls
  {
    var keys := Descending(s.selected);
    var calls := RemovalCalls(keys) + [ClearCabIfActive];
    assert forall k :: RemoveItemView(k) in calls ==> k in keys by {
      forall k | RemoveItemView(k) in calls ensures k in keys {
        var i :| 0 <= i < |calls| && calls[i] == RemoveItemView(k);
        assert i < |keys|;
      }
    }
    assert forall k :: k in keys ==> RemoveItemView(k) in calls by {
      forall k | k in keys ensures RemoveItemView(k) in calls {
        var i :| 0 <= i < |keys| && keys[i] == k;
        assert calls[i] == RemoveItemView(k);
      }
    }
    Step(s.(selected := {}, colorList := newColors), calls)
  }

  lemma DeleteSucceededSteps(s: MinimalState, newColors: seq<string>)
    ensures DeleteSucceeded(s, newColors)
      == Step(s.(selected := {}, colorList := newColors), RemovalCalls(Descending(s.selected)) + [ClearCabIfActive])
  {
  }

  /** The deletion failed: the CAB is cleared and an error is shown; nothing else changes. */
  function DeleteFailed(s: MinimalState): (r: Step)
    ensures r.state == s
    ensures r.calls == [ClearCabIfActive, ShowDeleteColorsErrorMessage]
  {
    Step(s, [ClearCabIfActive, ShowDeleteColorsErrorMessage])
  }

  /**
   * handleCabDestroyed as the source writes it: the selection count is reset
   * only together with an enabled panel, so it goes stale otherwise.
   */
  function CabDestroyedAsWritten(s: MinimalState): (r: Step)
    ensures r.state == s.(selected := {}, bottomPanelEnabled := false,
                          selectionSize := if s.bottomPanelEnabled then InitialSize else s.selectionSize)
    ensures HideBottomLayoutWithAnimation in r.calls <==> s.bottomPanelEnabled
    ensures |r.calls| >= 1 && r.calls[|r.calls| - 1] == UpdateAllItems
  {
    var cleared := s.(selected := {});
    if cleared.bottomPanelEnabled then
      Step(cleared.(bottomPanelEnabled := false, selectionSize := InitialSize),
           [HideBottomLayoutWithAnimation, UpdateAllItems])
    else
      Step(cleared, [UpdateAllItems])
  }

  /**
   * handleCabDestroyed as evidently intended: the selection is cleared, the
   * panel is hidden if it was shown, and the count is reset in every case.
   */
  function CabDestroyed(s: MinimalState): (r: Step)
    ensures r.state == s.(selected := {}, selectionSize := InitialSize, bottomPanelEnabled := false)
    ensures HideBottomLayoutWithAnimation in r.calls <==> s.bottomPanelEnabled
    ensures |r.calls| >= 1 && r.calls[|r.calls| - 1] == UpdateAllItems
  {
    var cleared := s.(selected := {}, selectionSize := InitialSize);
    if cleared.bottomPanelEnabled then
      Step(cleared.(bottomPanelEnabled := false), [HideBottomLayoutWithAnimation, UpdateAllItems])
    else
      Step(cleared, [UpdateAllItems])
  }

  /** Spinner positions 0, 1, 2 choose that type; any other position changes nothing. */
  function SpinnerOptionChanged(s: MinimalState, position: int): (r: MinimalState)
    ensures 0 <= position < 3 ==> Ordinal(r.imageType) == position
    ensures !(0 <= position < 3) ==> r == s
    ensures r == s.(imageType := r.imageType)
  {
    if position == Ordinal(Material) then s.(imageType := Material)
    else if position == Ordinal(Gradient) then s.(imageType := Gradient)
    else if position == Ordinal(Plasma) then s.(imageType := Plasma)
    else s
  }

  /** The colour list arrived: it replaces the old one and the whole grid is redrawn. */
  function ColorsLoaded(s: MinimalState, colors: seq<string>): (r: Step)
    ensures r == Step(s.(colorList := colors), [UpdateAllItems])
  {
    Step(s.(colorList := colors), [UpdateAllItems])
  }

  function ColorsLoadFailed(s: MinimalState, e: ColorsError): (r: Step)
    ensures r.state == s
    ensures r.calls == [ShowUnableToGetColorsErrorMessage] <==> e == UnableToGetSolidColors
    ensures r.calls == [ShowGenericErrorMessage] <==> e == OtherColorsError
  {
    match e
    case UnableToGetSolidColors => Step(s, [ShowUnableToGetColorsErrorMessage])
    case OtherColorsError => Step(s, [ShowGenericErrorMessage])
  }

  /**
   * The selection counter agrees with the selection, and the bottom panel is
   * shown only while more than one item is selected.
   */
  predicate Consistent(s: MinimalState) {
    s.selectionSize == |s.selected| && (s.bottomPanelEnabled ==> s.selectionSize > FirstElementIndex)
  }

  lemma InitialStateConsistent()
    ensures Consistent(InitialState)
  {
  }

  /** Selecting or toggling makes the state consistent, whatever it was before. */
  lemma SelectionEstablishesConsistency(s: MinimalState, index: int, selected: bool)
    ensures Consistent(SelectItem(s, index, selected).state)
    ensures Consistent(Toggle(s, index).state)
    ensures Consistent(ImageLongClick(s, index).state)
  {
  }

  /**
   * Every operation of the corrected presenter keeps the state consistent;
   * a successful deletion is followed by the CAB's destruction, which the
   * view triggers when it clears the CAB.
   */
  lemma OperationsPreserveConsistency(s: MinimalState, index: int, dy: int, position: int,
                                      colors: seq<string>, e: ColorsError)
    requires Consistent(s)
    ensures Consistent(Click(s, index).state)
    ensures Consistent(Scroll(s, dy).state)
    ensures Consistent(SpinnerOptionChanged(s, position))
    ensures Consistent(ColorsLoaded(s, colors).state)
    ensures Consistent(ColorsLoadFailed(s, e).state)
    ensures Consistent(DeleteFailed(s).state)
    ensures Consistent(CabDestroyed(s).state)
    ensures Consistent(CabDestroyed(DeleteSucceeded(s, colors).state).state)
  {
    SelectionEstablishesConsistency(s, index, true);
  }

  /** In a consistent state, a shown panel means at least two items are selected. */
  lemma PanelShownMeansSelection(s: MinimalState)
    requires Consistent(s) && s.bottomPanelEnabled
    ensures |s.selected| >= 2
  {
  }

  /** Toggling one position twice gives back the selection it started from. */
  lemma ToggleTwice(s: MinimalState, index: int)
    ensures Toggle(Toggle(s, index).state, index).state.selected == s.selected
  {
    var once := Toggle(s, index).state.selected;
    var twice := Toggle(Toggle(s, index).state, index).state.selected;
    assert forall k :: k in twice <==> k in s.selected by {
      forall k ensures k in twice <==> k in s.selected {
        if k == KeyOf(index) {
          assert k in once <==> k !in s.selected;
        }
      }
    }
  }

  /**
   * As written, destroying the CAB while the panel is hidden and items are
   * selected leaves a stale count behind.
   */
  lemma CabDestroyedAsWrittenBreaksConsistency(s: MinimalState)
    requires Consistent(s) && !s.bottomPanelEnabled && s.selected != {}
    ensures !Consistent(CabDestroyedAsWritten(s).state)
  {
  }

  /**
   * The concrete consequence: select two colours, scroll down (the panel
   * hides), close the CAB, scroll up: the panel animates back in with
   * nothing selected.
   */
  lemma StaleSelectionSizeReopensPanel(colors: seq<string>)
    ensures var s1 := Toggle(InitialState.(colorList := colors), 1).state;
      var s2 := Toggle(s1, 2).state;
      var s3 := Scroll(s2, MinimumScrollDist + 1).state;
      var s4 := CabDestroyedAsWritten(s3).state;
      var r := Scroll(s4, -MinimumScrollDist - 1);
      && r.state.bottomPanelEnabled && r.state.selected == {}
      && r.calls == [ShowBottomPanelWithAnimation]
  {
    var s1 := Toggle(InitialState.(colorList := colors), 1).state;
    assert s1.selected == {0};
    var s2 := Toggle(s1, 2).state;
    assert s2.selected == {0, 1};
    assert s2.selectionSize == 2;
  }

  /** With the correction, no scroll can show the panel once the CAB is gone. */
  lemma CabDestroyedKeepsPanelClosed(s: MinimalState, dy: int)
    ensures !Scroll(CabDestroyed(s).state, dy).state.bottomPanelEnabled
  {
  }

  /** The presenter object; its fields are the source's fields. */
  class MinimalPresenter {
    var isBottomPanelEnabled: bool
    var selectionSize: int
    var forceSmoothScroll: bool
    var multiColorImageType: MultiColorImageType
    var colorList: seq<string>
    var selectedItems: set<int>

    function State(): MinimalState
      reads this
    {
      MinimalState(selectedItems, selectionSize, isBottomPanelEnabled, forceSmoothScroll,
                   colorList, multiColorImageType)
    }

    constructor ()
      ensures State() == InitialState
    {
      isBottomPanelEnabled := false;
      selectionSize := InitialSize;
      forceSmoothScroll := false;
      multiColorImageType := Material;
      colorList := [];
      selectedItems := {};
    }

    method OnColorsLoaded(colors: seq<string>) returns (calls: seq<ViewCall>)
      modifies this
      ensures Step(State(), calls) == ColorsLoaded(old(State()), colors)
    {
      colorList := colors;
      calls := [UpdateAllItems];
    }

    method OnColorsLoadFailed(e: ColorsError) returns (calls: seq<ViewCall>)
      ensures Step(State(), calls) == ColorsLoadFailed(State(), e)
    {
      if e == UnableToGetSolidColors {
        calls := [ShowUnableToGetColorsErrorMessage];
      } else {
        calls := [ShowGenericErrorMessage];
      }
    }

    method UpdateSelectionChange(index: int, size: int) returns (calls: seq<ViewCall>)
      modifies this
      ensures Step(State(), calls) == SelectionChange(old(State()), index, size)
    {
      selectionSize := size;
      calls := [UpdateItemView(index)];
      if selectionSize == FirstElementIndex {
        calls := calls + [ShowCab(selectionSize)];
        if isBottomPanelEnabled {
          calls := calls + [HideBottomLayoutWithAnimation];
          isBottomPanelEnabled := false;
        }
      } else if selectionSize > FirstElementIndex && !isBottomPanelEnabled {
        isBottomPanelEnabled := true;
        calls := calls + [ShowBottomPanelWithAnimation, ShowCab(selectionSize)];
      } else if selectionSize > FirstElementIndex && isBottomPanelEnabled {
        calls := calls + [ShowCab(selectionSize)];
      } else if selectionSize == InitialSize {
        isBottomPanelEnabled := false;
        calls := calls + [HideBottomLayoutWithAnimation, HideCab];
      }
    }

    method HandleScroll(yAxisMovement: int) returns (calls: seq<ViewCall>)
      modifies this
      ensures Step(State(), calls) == Scroll(old(State()), yAxisMovement)
    {
      calls := [];
      if isBottomPanelEnabled && yAxisMovement > MinimumScrollDist && !forceSmoothScroll {
        calls := [HideBottomLayoutWithAnimation];
        isBottomPanelEnabled := false;
      } else if !isBottomPanelEnabled && yAxisMovement < -MinimumScrollDist && selectionSize > 1 {
        calls := [ShowBottomPanelWithAnimation];
        isBottomPanelEnabled := true;
      }
    }

    method IsItemSelected(index: int) returns (r: bool)
      ensures r <==> index - InitialOffset in selectedItems
    {
      r := index - InitialOffset in selectedItems;
    }

    method SetItemSelected(index: int, selected: bool) returns (calls: seq<ViewCall>)
      modifies this
      ensures Step(State(), calls) == SelectItem(old(State()), index, selected)
    {
      if selected {
        selectedItems := selectedItems + {index - InitialOffset};
      } else {
        selectedItems := selectedItems - {index - InitialOffset};
      }
      calls := UpdateSelectionChange(index, |selectedItems|);
    }

    method ClearSelectedItems()
      modifies this
      ensures State() == old(State()).(selected := {})
    {
      selectedItems := {};
    }

    method ToggleSelected(index: int) returns (calls: seq<ViewCall>)
      modifies this
      ensures Step(State(), calls) == Toggle(old(State()), index)
    {
      var key := index - InitialOffset;
      if key !in selectedItems {
        selectedItems := selectedItems + {key};
      } else {
        selectedItems := selectedItems - {key};
      }
      calls := UpdateSelectionChange(index, |selectedItems|);
    }

    method HandleClick(position: int) returns (calls: seq<ViewCall>)
      modifies this
      ensures Step(State(), calls) == Click(old(State()), position)
    {
      if |selectedItems| == 0 {
        calls := [];
      } else {
        calls := ToggleSelected(position);
      }
    }

    method HandleImageLongClick(position: int) returns (calls: seq<ViewCall>)
      modifies this
      ensures Step(State(), calls) == ImageLongClick(old(State()), position)
    {
      calls := ToggleSelected(position);
      calls := calls + [StartSelection(position)];
    }

    method NumberOfItemsToBeDeselectedToStartDeletion() returns (n: int)
      ensures n == DeselectionShortfall(State())
      ensures n == 0 <==> |colorList| - |selectedItems| >= MinimumColorListSize
      ensures n > 0 ==> n == MinimumColorListSize - (|colorList| - |selectedItems|)
    {
      if |colorList| - |selectedItems| >= MinimumColorListSize {
        n := InitialSize;
      } else {
        n := MinimumColorListSize - (|colorList| - |selectedItems|);
      }
    }

    /** Returns the deletion request to send, or the message asking to deselect first. */
    method HandleDeleteMenuItemClick() returns (outcome: DeleteOutcome)
      ensures outcome == DeleteMenuItemClick(State())
    {
      var n := NumberOfItemsToBeDeselectedToStartDeletion();
      if n == InitialSize {
        outcome := ModifyColors(colorList, selectedItems);
      } else {
        outcome := AskToDeselect(ShowDeselectBeforeDeletionMessage(n));
      }
    }

    /** The deletion request succeeded with the new colour list `newColors`. */
    method OnModifyColorsSuccess(newColors: seq<string>) returns (calls: seq<ViewCall>)
      modifies this
      ensures Step(State(), calls) == DeleteSucceeded(old(State()), newColors)
    {
      ghost var before := State();
      var reversedSelectedItems := DescendingKeys(selectedItems);
      ClearSelectedItems();
      colorList := newColors;
      calls := RemoveItemViews(reversedSelectedItems);
      calls := calls + [ClearCabIfActive];
      DeleteSucceededSteps(before, newColors);
    }

    method OnModifyColorsError() returns (calls: seq<ViewCall>)
      ensures Step(State(), calls) == DeleteFailed(State())
    {
      calls := [ClearCabIfActive, ShowDeleteColorsErrorMessage];
    }

    /** The CAB was closed; corrected so that the count is reset in every case. */
    method HandleCabDestroyed() returns (calls: seq<ViewCall>)
      modifies this
      ensures Step(State(), calls) == CabDestroyed(old(State()))
    {
      ClearSelectedItems();
      calls := [];
      if isBottomPanelEnabled {
        calls := [HideBottomLayoutWithAnimation];
        isBottomPanelEnabled := false;
      }
      selectionSize := InitialSize;
      calls := calls + [UpdateAllItems];
    }

    method HandleSpinnerOptionChanged(position: int)
      modifies this
      ensures State() == SpinnerOptionChanged(old(State()), position)
    {
      if position == Ordinal(Material) {
        multiColorImageType := Material;
      } else if position == Ordinal(Gradient) {
        multiColorImageType := Gradient;
      } else if position == Ordinal(Plasma) {
        multiColorImageType := Plasma;
      }
    }
  }

  /** One removeItemView per key, issued in the order of `keys`. */
  method RemoveItemViews(keys: seq<int>) returns (calls: seq<ViewCall>)
    ensures |calls| == |keys|
    ensures forall i :: 0 <= i < |keys| ==> calls[i] == RemoveItemView(keys[i])
    ensures calls == RemovalCalls(keys)
  {
    calls := [];
    var i := 0;
    while i < |keys|
      invariant 0 <= i <= |keys|
      invariant calls == RemovalCalls(keys[..i])
    {
      calls := calls + [RemoveItemView(keys[i])];
      i := i + 1;
    }
    assert keys[..i] == keys;
  }

  /** The keys of `s` in strictly descending order, built by inserting them one at a time. */
  method DescendingKeys(s: set<int>) returns (keys: seq<int>)
    ensures StrictlyDescending(keys)
    ensures forall x :: x in keys <==> x in s
    ensures keys == Descending(s)
  {
    keys := [];
    var rest := s;
    while rest != {}
      invariant rest <= s
      invariant StrictlyDescending(keys)
      invariant forall x :: x in keys <==> x in s && x !in rest
      decreases |rest|
    {
      NonEmptyHasElement(rest);
      var x :| x in rest;
      keys := InsertDescending(keys, x);
      rest := rest - {x};
    }
    DescendingUnique(keys, Descending(s));
  }
}
