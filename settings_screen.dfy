/**
 * SettingsScreen.kt: the dark-mode row, its description and the selection
 * sheet it opens. The three option labels are string resources, so they are
 * parameters here.
 */
module SettingsScreen {
  import opened Wrappers
  import opened SettingKeys
  import opened SelectionSheets

  datatype DarkModeLabels = DarkModeLabels(system: string, light: string, dark: string)

  const DarkModeTitle: StringRes := StringRes("settings_dark_mode_title")

  /** The label the settings screen gives each mode. */
  function LabelOf(labels: DarkModeLabels, mode: DarkMode): string {
    match mode
    case SYSTEM => labels.system
    case LIGHT => labels.light
    case DARK => labels.dark
  }

  /** Some option holds `mode`. */
  predicate Offers<T(==)>(options: seq<ChoiceOption<T>>, mode: T) {
    exists i :: 0 <= i < |options| && options[i].value == mode
  }

  /** A list whose first three options are System, Light and Dark offers every mode. */
  lemma EveryModeOffered(options: seq<ChoiceOption<DarkMode>>)
    requires |options| >= 3
    requires options[0].value == SYSTEM && options[1].value == LIGHT && options[2].value == DARK
    ensures forall mode: DarkMode :: Offers(options, mode)
  {
    forall mode: DarkMode
      ensures Offers(options, mode)
    {
      var i := match mode case SYSTEM => 0 case LIGHT => 1 case DARK => 2;
      assert options[i].value == mode;
    }
  }

  /**
   * The options, in the order the sheet lists them (System, Light, Dark):
   * each mode appears exactly once, with its own label.
   */
  function DarkModeOptions(labels: DarkModeLabels): (options: seq<ChoiceOption<DarkMode>>)
    ensures |options| == 3
    ensures options[0].value == SYSTEM && options[1].value == LIGHT && options[2].value == DARK
    ensures forall mode: DarkMode :: Offers(options, mode)
    ensures forall i, j :: 0 <= i < j < |options| ==> options[i].value != options[j].value
    ensures forall i :: 0 <= i < |options| ==> options[i].labelText == LabelOf(labels, options[i].value)
  {
    var options := [ChoiceOption(SYSTEM, labels.system), ChoiceOption(LIGHT, labels.light),
                    ChoiceOption(DARK, labels.dark)];
    EveryModeOffered(options);
    options
  }

  /** Kotlin's `find`: the first option holding `value`, if any. */
  function Find<T(==)>(options: seq<ChoiceOption<T>>, value: T): (found: Option<ChoiceOption<T>>)
    ensures found.None? <==> forall i :: 0 <= i < |options| ==> options[i].value != value
    ensures found.Some? ==>
      exists i :: (0 <= i < |options| && options[i] == found.value && options[i].value == value
                   && forall j :: 0 <= j < i ==> options[j].value != value)
  {
    if options == [] then None
    else if options[0].value == value then Some(options[0])
    else
      var rest := Find(options[1..], value);
      assert rest.Some? ==>
        exists i :: (1 <= i < |options| && options[i] == rest.value && options[i].value == value
                     && forall j :: 1 <= j < i ==> options[j].value != value) by {
        if rest.Some? {
          var k :| 0 <= k < |options[1..]| && options[1..][k] == rest.value
            && options[1..][k].value == value && forall j :: 0 <= j < k ==> options[1..][j].value != value;
          assert options[k + 1] == rest.value;
          assert forall j :: 1 <= j < k + 1 ==> options[j] == options[1..][j - 1];
        }
      }
      rest
  }

  /** The row's description: the label of the first option matching the mode, or "" when none does. */
  function DescriptionFor(options: seq<ChoiceOption<DarkMode>>, mode: DarkMode): string {
    match Find(options, mode)
    case Some(option) => option.labelText
    case None => ""
  }

  /** Since the options cover every mode, the description is always that mode's label, never the fallback. */
  lemma DescriptionIsModeLabel(labels: DarkModeLabels, mode: DarkMode)
    ensures Find(DarkModeOptions(labels), mode).Some?
    ensures DescriptionFor(DarkModeOptions(labels), mode) == LabelOf(labels, mode)
  {
    var options := DarkModeOptions(labels);
    var k := match mode case SYSTEM => 0 case LIGHT => 1 case DARK => 2;
    assert options[k].value == mode;
    var found := Find(options, mode);
    var i :| 0 <= i < |options| && options[i] == found.value && options[i].value == mode
      && forall j :: 0 <= j < i ==> options[j].value != mode;
    assert i == k;
  }

  /** The settings screen's view of the stored dark-mode setting. */
  class SettingsUi {
    const labels: DarkModeLabels
    var darkMode: DarkMode

    constructor (labels: DarkModeLabels, stored: DarkMode)
      ensures this.labels == labels && darkMode == stored
    {
      this.labels := labels;
      darkMode := stored;
    }

    function Description(): string
      reads this
    {
      DescriptionFor(DarkModeOptions(labels), darkMode)
    }

    /** Tapping the row opens the sheet on the current mode, without confirmation mode. */
    method OpenDarkModeSheet() returns (overlay: Overlay<DarkMode>)
      ensures overlay.model == SelectionModel(DarkModeTitle, DarkModeOptions(labels), darkMode, false)
      ensures overlay.dismissResult == Cancelled
    {
      overlay := SelectionSheetOverlay(DarkModeTitle, DarkModeOptions(labels), darkMode);
    }

    /** `Selected(v)` stores v; `Cancelled` keeps the mode. */
    method ApplySheetResult(result: SelectionResult<DarkMode>)
      modifies this
      ensures darkMode == if result.Selected? then result.value else old(darkMode)
    {
      if result.Selected? {
        darkMode := result.value;
      }
    }
  }

  /** Picking option i in the dark-mode sheet: one tap stores its mode, and the row then shows its label. */
  method PickDarkMode(settings: SettingsUi, i: nat)
    requires i < 3
    modifies settings
    ensures settings.darkMode == DarkModeOptions(settings.labels)[i].value
    ensures settings.Description() == DarkModeOptions(settings.labels)[i].labelText
  {
    var overlay := settings.OpenDarkModeSheet();
    var sheet := new SelectionSheet(overlay.model);
    sheet.TapOption(i);
    settings.ApplySheetResult(sheet.result.value);
    DescriptionIsModeLabel(settings.labels, settings.darkMode);
  }
}
