/** The package-level declarations the dispatcher reads. */
module Package {

  /** The package's semantic version, fixed at declaration and never changed. */
  const Version: string := "0.1.0"
}
