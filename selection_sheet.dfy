/**
 * SelectionSheetOverlay.kt: a bottom sheet offering a list of choices. Without
 * confirmation mode a tap finishes the sheet with that choice; with it, taps
 * only move the current choice and a Cancel/Apply footer finishes the sheet.
 * Dismissing the overlay finishes it with `Cancelled`.
 */
module SelectionSheets {
  import opened Wrappers
  import opened Theme

  /** An Android string resource, named by its key. */
  datatype StringRes = StringRes(name: string)

  /** `label` in the source; the word is reserved in Dafny. */
  datatype ChoiceOption<T> = ChoiceOption(value: T, labelText: string)

  datatype SelectionResult<T> = Selected(value: T) | Cancelled

  datatype SelectionModel<T> = SelectionModel(
    titleRes: StringRes,
    options: seq<ChoiceOption<T>>,
    selected: T,
    confirmationMode: bool)

  /** The overlay: its model, and the result it yields when dismissed. */
  datatype Overlay<T> = Overlay(model: SelectionModel<T>, dismissResult: SelectionResult<T>)

  /** `selectionSheetOverlay`: confirmation mode is off unless asked for; dismissing cancels. */
  function SelectionSheetOverlay<T>(
    titleRes: StringRes, options: seq<ChoiceOption<T>>, selected: T, confirmationMode: bool := false
  ): (overlay: Overlay<T>)
    ensures overlay.model.titleRes == titleRes && overlay.model.options == options
    ensures overlay.model.selected == selected && overlay.model.confirmationMode == confirmationMode
    ensures overlay.dismissResult == Cancelled
  {
    Overlay(SelectionModel(titleRes, options, selected, confirmationMode), Cancelled)
  }

  /**
   * The open sheet (`SelectionSheet`). `result` is what the sheet has
   * finished with through its navigator, None while it is open; events are
   * delivered only while it is open.
   */
  class SelectionSheet<T(==)> {
    const options: seq<ChoiceOption<T>>
    const initialSelected: T
    const confirmationMode: bool
    var selectedValue: T
    var result: Option<SelectionResult<T>>

    /** The overlay's content: the sheet starts with the model's selected value as its choice. */
    constructor (model: SelectionModel<T>)
      ensures options == model.options && initialSelected == model.selected
      ensures confirmationMode == model.confirmationMode
      ensures selectedValue == model.selected && result == None
    {
      options := model.options;
      initialSelected := model.selected;
      confirmationMode := model.confirmationMode;
      selectedValue := model.selected;
      result := None;
    }

    /** The Cancel/Apply footer exists only in confirmation mode. */
    predicate FooterShown() {
      confirmationMode
    }

    /** Apply is enabled only once the choice differs from the one the sheet opened with. */
    function ApplyEnabled(): bool
      reads this
    {
      selectedValue != initialSelected
    }

    /** Row i is drawn as selected when it holds the current choice. */
    function IsRowSelected(i: nat): bool
      requires i < |options|
      reads this
    {
      options[i].value == selectedValue
    }

    function RowShape(i: nat): ListShape
      requires i < |options|
    {
      CalculateListShape(i, |options|)
    }

    method TapOption(i: nat)
      requires i < |options| && result == None
      modifies this
      ensures confirmationMode ==> selectedValue == options[i].value && IsRowSelected(i) && result == None
      ensures !confirmationMode ==> result == Some(Selected(options[i].value)) && selectedValue == old(selectedValue)
    {
      if confirmationMode {
        selectedValue := options[i].value;
      } else {
        result := Some(Selected(options[i].value));
      }
    }

    /** Apply finishes with the current choice; pressed while disabled, it does nothing. */
    method Apply()
      requires FooterShown() && result == None
      modifies this
      ensures selectedValue == old(selectedValue)
      ensures result == if old(ApplyEnabled()) then Some(Selected(selectedValue)) else None
      ensures result.Some? ==> result.value.value != initialSelected
    {
      if ApplyEnabled() {
        result := Some(Selected(selectedValue));
      }
    }

    method Cancel()
      requires FooterShown() && result == None
      modifies this
      ensures result == Some(Cancelled) && selectedValue == old(selectedValue)
    {
      result := Some(Cancelled);
    }

    /** Swiping the sheet away or tapping outside it: the overlay's dismiss result. */
    method Dismiss()
      requires result == None
      modifies this
      ensures result == Some(Cancelled) && selectedValue == old(selectedValue)
    {
      result := Some(Cancelled);
    }
  }
}
