/** The value records exchanged by the installer facade (src/types.d.ts). */
module Types {

  /** An optional value: `None` stands for a property left `undefined`. */
  datatype Option<+T> = None | Some(value: T)

  /**
   * What a caller may pass to installBrowser. Every field is optional; a browser
   * may be a canonical identifier or an alias key, so it is a plain string.
   */
  datatype InstallOptions = InstallOptions(
    browser: Option<string>,
    buildId: Option<string>,
    cacheDir: Option<string>,
    platform: Option<string>,
    force: Option<bool>)

  /** The options object with every property undefined (`{}`). */
  const NoOptions: InstallOptions := InstallOptions(None, None, None, None, None)

  /** What installBrowser hands back on success. */
  datatype InstallResult = InstallResult(
    executablePath: string,
    browser: string,
    buildId: string,
    wasInstalled: bool)

  /** One entry of the provisioning library's inventory of a cache directory. */
  datatype InstalledBrowser = InstalledBrowser(
    browser: string,
    buildId: string,
    executablePath: string)

  /** The failures installBrowser reports to its caller. */
  datatype InstallError =
    | CouldNotDetectPlatform
    | ExternalInstallFailed(message: string)

  datatype Result<+T> = Ok(value: T) | Err(error: InstallError)
}
