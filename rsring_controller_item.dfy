/**
 * com.rsring.item.ItemExperiencePumpController: the controller item keeps its
 * settings in a "ControllerData" compound of the stack's tag. The static
 * getters read it with per-key defaults; the setters rewrite it in place.
 */
module RsringControllerItem {
  import opened Wrappers
  import opened Nbt
  import Cap = RsringPumpCapability

  const ControllerTag: string := "ControllerData"
  const ModeKey: string := "mode"
  const RetainLevelKey: string := "retainLevel"
  const MendingKey: string := "mending"
  const ExtractLevelsKey: string := "extractLevels"
  const StoreLevelsKey: string := "storeLevels"

  const DefaultRetainLevel: int := 10
  const DefaultLevels: int := 1

  /** What the accessors see of an item stack: whether it is empty and its tag. */
  datatype StackView = StackView(isEmpty: bool, tag: Option<Compound>)

  /** getControllerData: the ControllerData compound, or null. */
  function GetControllerData(stack: StackView): (r: Option<Compound>)
    ensures r.Some? <==> !stack.isEmpty && stack.tag.Some? && HasKey(stack.tag.value, ControllerTag)
    ensures r.Some? ==> r.value == GetCompound(stack.tag.value, ControllerTag)
  {
    if stack.isEmpty || stack.tag.None? || !HasKey(stack.tag.value, ControllerTag) then None
    else Some(GetCompound(stack.tag.value, ControllerTag))
  }

  /** A key of the controller data when present, the default otherwise. */
  function KeyOr(stack: StackView, key: string, default: int): (r: int)
    ensures GetControllerData(stack).None? ==> r == default
    ensures GetControllerData(stack).Some? && !HasKey(GetControllerData(stack).value, key) ==> r == default
  {
    var data := GetControllerData(stack);
    if data.Some? && HasKey(data.value, key) then GetInteger(data.value, key) else default
  }

  /** getExtractLevels: 1 unless the data holds extractLevels. */
  function GetExtractLevels(stack: StackView): int
  {
    KeyOr(stack, ExtractLevelsKey, DefaultLevels)
  }

  /** getStoreLevels: 1 unless the data holds storeLevels. */
  function GetStoreLevels(stack: StackView): int
  {
    KeyOr(stack, StoreLevelsKey, DefaultLevels)
  }

  /** getMode: MODE_OFF without data; with data, getInteger (so 0 when the key is missing). */
  function GetMode(stack: StackView): (r: int)
    ensures GetControllerData(stack).None? ==> r == Cap.ModeOff
    ensures GetControllerData(stack).Some? && !HasKey(GetControllerData(stack).value, ModeKey) ==> r == 0
  {
    var data := GetControllerData(stack);
    if data.Some? then GetInteger(data.value, ModeKey) else Cap.ModeOff
  }

  /** getRetainLevel: 10 unless the data holds retainLevel. */
  function GetRetainLevel(stack: StackView): int
  {
    KeyOr(stack, RetainLevelKey, DefaultRetainLevel)
  }

  /** isUseForMending: false without data. */
  function IsUseForMending(stack: StackView): (r: bool)
    ensures GetControllerData(stack).None? ==> !r
  {
    var data := GetControllerData(stack);
    data.Some? && GetBoolean(data.value, MendingKey)
  }

  /** The compound setControllerData builds: exactly the three settings. */
  function SettingsCompound(mode: int, retainLevel: int, useForMending: bool): (c: Compound)
    ensures c.Keys == {ModeKey, RetainLevelKey, MendingKey}
    ensures GetInteger(c, ModeKey) == mode && GetInteger(c, RetainLevelKey) == retainLevel
    ensures GetBoolean(c, MendingKey) == useForMending
  {
    SetBoolean(SetInteger(SetInteger(Empty, ModeKey, mode), RetainLevelKey, retainLevel), MendingKey, useForMending)
  }

  /** The stack after setControllerData; an empty stack is left alone. */
  function WithControllerData(stack: StackView, mode: int, retainLevel: int, useForMending: bool): (r: StackView)
    ensures stack.isEmpty ==> r == stack
    ensures !stack.isEmpty ==>
      && GetMode(r) == mode && GetRetainLevel(r) == retainLevel && IsUseForMending(r) == useForMending
      && GetExtractLevels(r) == DefaultLevels && GetStoreLevels(r) == DefaultLevels
    ensures !stack.isEmpty && stack.tag.Some? ==>
      r.tag.Some? && forall k :: k != ControllerTag && k in stack.tag.value ==> k in r.tag.value && r.tag.value[k] == stack.tag.value[k]
  {
    if stack.isEmpty then stack
    else
      var tag := stack.tag.GetOr(Empty);
      stack.(tag := Some(SetCompound(tag, ControllerTag, SettingsCompound(mode, retainLevel, useForMending))))
  }

  /** The stack after setExtractStoreLevels; missing data starts from the defaults. */
  function WithExtractStoreLevels(stack: StackView, extractLevels: int, storeLevels: int): (r: StackView)
    ensures stack.isEmpty ==> r == stack
    ensures !stack.isEmpty ==>
      && GetExtractLevels(r) == extractLevels && GetStoreLevels(r) == storeLevels
      && GetMode(r) == GetMode(stack) && GetRetainLevel(r) == GetRetainLevel(stack)
      && IsUseForMending(r) == IsUseForMending(stack)
    ensures !stack.isEmpty && stack.tag.Some? ==>
      r.tag.Some? && forall k :: k != ControllerTag && k in stack.tag.value ==> k in r.tag.value && r.tag.value[k] == stack.tag.value[k]
  {
    if stack.isEmpty then stack
    else
      var tag := stack.tag.GetOr(Empty);
      var data := match GetControllerData(stack)
        case Some(d) => d
        case None => SettingsCompound(Cap.ModeOff, DefaultRetainLevel, false);
      var updated := SetInteger(SetInteger(data, ExtractLevelsKey, extractLevels), StoreLevelsKey, storeLevels);
      stack.(tag := Some(SetCompound(tag, ControllerTag, updated)))
  }

  /** setControllerData replaces the whole compound, so levels set earlier are reset to 1. */
  lemma {:induction false} SetControllerDataResetsLevels(stack: StackView, e: int, s: int, mode: int, retainLevel: int, mending: bool)
    requires !stack.isEmpty
    ensures var r := WithControllerData(WithExtractStoreLevels(stack, e, s), mode, retainLevel, mending);
      GetExtractLevels(r) == DefaultLevels && GetStoreLevels(r) == DefaultLevels
  {
    var mid := WithExtractStoreLevels(stack, e, s);
    assert !mid.isEmpty;
  }

  /** The controller item stack, whose tag the static setters rewrite in place. */
  class ControllerStack {
    const isEmpty: bool
    var tag: Option<Compound>

    function View(): StackView
      reads this
    {
      StackView(isEmpty, tag)
    }

    constructor (isEmpty: bool, tag: Option<Compound>)
      ensures View() == StackView(isEmpty, tag)
    {
      this.isEmpty := isEmpty;
      this.tag := tag;
    }

    /** setControllerData(stack, mode, retainLevel, useForMending). */
    method SetControllerData(mode: int, retainLevel: int, useForMending: bool)
      modifies this
      ensures View() == WithControllerData(old(View()), mode, retainLevel, useForMending)
    {
      if isEmpty {
        return;
      }
      if tag.None? {
        tag := Some(Empty);
      }
      var data := SetInteger(Empty, ModeKey, mode);
      data := SetInteger(data, RetainLevelKey, retainLevel);
      data := SetBoolean(data, MendingKey, useForMending);
      tag := Some(SetCompound(tag.value, ControllerTag, data));
    }

    /** setExtractStoreLevels(stack, extractLevels, storeLevels). */
    method SetExtractStoreLevels(extractLevels: int, storeLevels: int)
      modifies this
      ensures View() == WithExtractStoreLevels(old(View()), extractLevels, storeLevels)
    {
      if isEmpty {
        return;
      }
      if tag.None? {
        tag := Some(Empty);
      }
      var existing := GetControllerData(View());
      var data: Compound;
      if existing.None? {
        data := SetInteger(Empty, ModeKey, Cap.ModeOff);
        data := SetInteger(data, RetainLevelKey, DefaultRetainLevel);
        data := SetBoolean(data, MendingKey, false);
      } else {
        data := existing.value;
      }
      data := SetInteger(data, ExtractLevelsKey, extractLevels);
      data := SetInteger(data, StoreLevelsKey, storeLevels);
      tag := Some(SetCompound(tag.value, ControllerTag, data));
    }
  }
}
