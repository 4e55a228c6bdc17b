/** The stored dark-mode setting (SettingKeys.kt); persistence is not modelled. */
module SettingKeys {
  datatype DarkMode = SYSTEM | LIGHT | DARK

  /** The value `DarkModeKey` reads when nothing is stored. */
  const DarkModeDefault: DarkMode := SYSTEM
}
