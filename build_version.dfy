/** The Android API levels the core branches on (`Build.VERSION_CODES`). */
module BuildVersion {
  /** Android 10. */
  const Q: int := 29
  /** Android 11. */
  const R: int := 30
  /** Android 12. */
  const S: int := 31
}
