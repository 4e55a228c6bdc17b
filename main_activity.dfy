/**
 * MainActivity.kt: the stored dark mode resolved to one dark flag, which
 * drives the theme and the dark detection of both system bars. The edge-to-edge
 * call and the scrim colours are platform calls and are not modelled.
 */
module MainActivity {
  import opened SettingKeys
  import opened Theme

  /** SYSTEM follows the system setting; LIGHT and DARK override it. */
  function IsDarkTheme(mode: DarkMode, systemDark: bool): (dark: bool)
    ensures mode == SYSTEM ==> dark == systemDark
    ensures mode == LIGHT ==> !dark
    ensures mode == DARK ==> dark
  {
    match mode
    case SYSTEM => systemDark
    case LIGHT => false
    case DARK => true
  }

  datatype Appearance = Appearance(scheme: ColorScheme, statusBarDark: bool, navigationBarDark: bool)

  /** What `onCreate`'s content sets up: theme and both bars agree on the resolved flag. */
  function ActivityAppearance(mode: DarkMode, systemDark: bool, sdkInt: int): (a: Appearance)
    ensures a.statusBarDark == IsDarkTheme(mode, systemDark)
    ensures a.navigationBarDark == a.statusBarDark
    ensures a.scheme.IsDark() == a.statusBarDark
    ensures a.scheme.IsDynamic() <==> sdkInt >= BuildVersion.S
  {
    var isDarkTheme := IsDarkTheme(mode, systemDark);
    Appearance(TemplateTheme(sdkInt, isDarkTheme), isDarkTheme, isDarkTheme)
  }
}
