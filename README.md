# electron-puppeteer: browser installer facade, modelled in Dafny

This Electron library installs browsers (Chrome, Chromium, Firefox, ChromeDriver,
Chrome headless shell) into the application's per-user data directory. It does so
through the `@puppeteer/browsers` provisioning library. The logic of its own sits in two places:

- **Alias resolution.** A constant table of five case-sensitive alias keys maps
  each key to a browser identifier. `resolveBrowser` replaces an alias key by its
  identifier and passes every other string through unchanged.
- **The reuse-or-install rule of `installBrowser`:**
  1. fail if no platform was given or detected;
  2. create the cache directory;
  3. unless `force` is set, take the first inventory entry for the resolved
     browser (and for the requested build, if any) and reuse it if its
     executable exists;
  4. otherwise ask the provisioning library to install `buildId || 'latest'`.

  Three wrappers fix the browser and return only the executable path.
  `getChromiumPath` is a fourth name for one of them.

The project has three modules:

- `Types` (`types.dfy`) holds the two records of `src/types.d.ts`: the options,
  with every property optional, and the result. It also holds the inventory entry,
  which `src/index.ts` declares inline at lines 62 and 136, and the
  `Option`/`Result` wrappers used for the thrown errors.
- `Config` (`config.dfy`) holds `src/config.ts`: the `Browser` vocabulary, the
  alias table, `DEFAULT_BROWSER` and `CACHE_DIR_NAME`.
- `Installer` (`installer.dfy`) holds `src/index.ts`. It comes in two layers:
  - **Pure layer.** `ResolveBrowser` and `DefaultCacheDir`. `Settle` applies the
    destructuring defaults. `FindMatch` is the `find` call. `Decide` picks one of
    the three exits. `Respond` builds the returned value or error. `InstallStep`
    composes these into one call: its result and the new host state.
  - **Imperative layer.** The `Host` class. Its fields are the existing paths,
    the inventory the library reports per cache directory, and logs of the
    inventory queries and install calls. `Host.InstallBrowser` runs the
    procedure step by step. Its postcondition ties the returned value and the
    new state to `InstallStep` of the old state. The wrappers are methods that set
    `buildId` on their options object only when one is given.

The external library is an oracle:

- **Platform detection** is the `Host`'s constant `detectedPlatform`.
- **Electron's user-data path** is the constant `userData`.
- **The install operation** records the request it receives and returns an
  `InstallOutcome` (a build id and a path, or a failure message). The caller
  passes that outcome in; the model puts no constraint on it.
- **Browser identifiers** are strings, because `resolveBrowser` passes unknown
  strings through. The five canonical strings are the values of the provisioning
  library's `Browser` enum. That library is not part of this model.

## Model

| member | source | states |
|---|---|---|
| `Config.IdInjective` | src/config.ts:9-15 | distinct browsers have distinct identifiers, so the alias table's targets never collide |
| `Config.AliasTable` | src/config.ts:9-17 | the alias key set (the `BrowserAlias` type) is exactly the five strings chrome, chromium, firefox, chromedriver, chromeheadlessshell, each mapped to its browser |
| `Config.AliasTableIsBijective` | src/config.ts:9-15 | every browser is named by exactly one alias key |
| `Installer.JoinPath` | src/index.ts:12 | the joined path starts with the directory and ends with the segment; its length is exactly theirs plus one separator, which is left out when the directory is empty or already ends in '/' |
| `Installer.DefaultCacheDir` | src/index.ts:11-13 | the default cache directory is the user-data path, then one separator (left out when the path is empty or already ends in '/'), then `puppeteer-browsers`, and nothing else |
| `Installer.ResolveBrowser` | src/index.ts:18-23 | resolution never fails and returns its input unchanged, except that the alias `chromeheadlessshell` becomes `chrome-headless-shell` |
| `Installer.ResolveAlias` | src/index.ts:19-20 | an alias key resolves to the identifier of the browser the table names |
| `Installer.ResolvePassesThrough` | src/index.ts:22 | a string that is not an alias key (including other capitalisations) is returned unchanged |
| `Installer.ResolveKnownAliases` | src/config.ts:10-14 | chrome, chromium, firefox, chromedriver and chromeheadlessshell resolve to CHROME, CHROMIUM, FIREFOX, CHROMEDRIVER and CHROMEHEADLESSSHELL (test/basic.test.ts:48-52 asserts the first three table entries) |
| `Installer.ResolveAliasesInjective` | src/config.ts:10-14 | two different alias keys never resolve to the same identifier |
| `Installer.ResolveFixesIds` | src/index.ts:18-23 | every canonical identifier resolves to itself |
| `Installer.ResolveIdempotent` | src/index.ts:18-23 | resolving twice gives the same answer as resolving once |
| `Installer.InstallBuildId` | src/index.ts:81 | the build id handed to the install is never empty: the requested one when it is truthy, `latest` when it is undefined or "" |
| `Installer.SettleDefaults` | src/index.ts:41-49 | with no options, the browser is Chrome (`DEFAULT_BROWSER`), any build matches, the default cache directory and the detected platform are used, and force is off |
| `Installer.FindMatch` | src/index.ts:61-64 | the `find` result is the position of the first entry with the resolved browser and, when a build id is set, that build id; none means no entry matches |
| `Installer.FirstMatchUnique` | src/index.ts:61-64 | there is at most one first match |
| `Installer.Decide` | src/index.ts:51-93 | throws exactly when the platform is missing or empty; force always installs; a reuse is the first match and its executable exists; a first match whose executable exists is reused when not forced; a first match whose executable is missing, or no match, leads to install; every install request carries the resolved browser, the requested build id or `latest`, the cache directory, the platform and unpack |
| `Installer.Respond` | src/index.ts:66-94 | the only error without a platform is "could not detect platform"; a reuse returns `Ok` with the entry's path and build id and `wasInstalled` false; an install that succeeds returns `Ok` with the install's path and build id and `wasInstalled` true; an install failure propagates; every result names the resolved browser |
| `Installer.StepReuses` | src/index.ts:59-75 | the reuse exit: the entry's path and build id are returned, the cache directory is created, one inventory query is logged, nothing is installed |
| `Installer.StepInstalls` | src/index.ts:79-94 | the install exit: exactly one install request is logged, the inventory is queried only when not forced, and the result is the install's report |
| `Installer.NoPlatformChangesNothing` | src/index.ts:45-56 | with no usable platform (none given and none detected, or an empty one), installBrowser throws and creates no directory, queries nothing and installs nothing |
| `Installer.CacheDirCreated` | src/index.ts:55-56 | with a platform, the cache directory exists afterwards, it is the only path the model adds (ancestors are not modelled), and the inventory is unchanged |
| `Installer.ForceAlwaysInstalls` | src/index.ts:59-93 | with force, the inventory is never queried and the install is called exactly once; a successful install returns its path and build id with `wasInstalled` true, and a failed one propagates its error |
| `Installer.ForceIgnoresInventory` | src/index.ts:59-77 | with force, the result does not depend on the inventory or on which paths exist |
| `Installer.ReuseIsFirstMatch` | src/index.ts:61-75 | a result with `wasInstalled` false was not forced, comes from the first matching inventory entry, carries that entry's path and build id, whose executable exists, and installs nothing |
| `Installer.FirstMatchOnly` | src/index.ts:61-87 | when the first match's executable is missing, the install is called, no later matching entry is reused, and the result is the install's report or its error |
| `Installer.InstallRequestsBuild` | src/index.ts:79-87 | at most one install call per installBrowser; its build id is the requested one, or `latest` when none or "" was requested; its browser is the resolved one; it asks for unpacking |
| `Installer.EmptyBuildIdIsUnset` | src/index.ts:63-81 | an empty build id gives the same result and the same state as an omitted one |
| `Installer.FindMatchUnsetBuild` | src/index.ts:63 | matching with build id "" finds the same entry as matching with no build id |
| `Installer.ResultNamesResolvedBrowser` | src/index.ts:42-91 | every successful result names the resolved browser, Chrome when the caller named none |
| `Installer.WrapperRequestsItsBrowser` | src/index.ts:100-131 | the wrapper's options select exactly its fixed browser, pass the caller's build id and leave every other option at its default |
| `Installer.Host.BrowserExists` | src/index.ts:28-35 | the existence probe is true exactly for existing paths; failures read as absence |
| `Installer.Host.MakeDirectory` | src/index.ts:56 | mkdir adds the directory to the existing paths and changes nothing else; adding it twice is the same as once (ancestors are not modelled) |
| `Installer.Host.GetInstalledBrowsers` | src/index.ts:60 | the query returns the library's inventory for the cache directory and is logged |
| `Installer.Host.ExternalInstall` | src/index.ts:87 | the install call is logged with its request and yields the library's report |
| `Installer.Host.InstallBrowser` | src/index.ts:40-95 | the returned value and the new host state are those of one `InstallStep` from the old state |
| `Installer.Host.InstallAndGetChromiumPath` | src/index.ts:100-107 | installs Chrome (despite the name) with the caller's build id if given, and returns only the executable path |
| `Installer.Host.InstallAndGetChromePath` | src/index.ts:112-119 | installs Chromium (despite the name) with the caller's build id if given, and returns only the executable path |
| `Installer.Host.InstallAndGetFirefoxPath` | src/index.ts:124-131 | installs Firefox with the caller's build id if given, and returns only the executable path |
| `Installer.Host.GetChromiumPath` | src/index.ts:157 | behaves exactly as installAndGetChromiumPath |

## Left out

- `Installer.Host.GetChromiumPath`: `getChromiumPath` is the same function object as `installAndGetChromiumPath` (src/index.ts:157), and the model gives it the same contract.
- The code resolves the browser and evaluates the default cache directory before the platform check (src/index.ts:41-53). Neither step has an effect in the model.
- `Installer.Host.MakeDirectory`: `fs.mkdir(cacheDir, { recursive: true })` (src/index.ts:56) also creates every missing ancestor of the cache directory. The model adds only the cache directory itself to the existing paths. An inventory executable path that is such an ancestor would be reused by the source but re-installed by the model.
- Download, unpacking, inventory scanning, platform detection and build-id resolution belong to `@puppeteer/browsers`. They enter the model only as `detectedPlatform`, the `inventories` field and the `InstallOutcome` parameter. As a result, an install does not add its executable or an inventory entry in the model. Properties that depend on the library's behaviour, such as "a second identical call reuses the first install", are therefore not stated.
- `app.getPath('userData')` is the `Host` constant `userData`. A failure of that call (the app not being ready) is not modelled.
- Errors thrown by `fs.mkdir` and `getInstalledBrowsers` are not modelled: both operations always succeed here. An external install failure is modelled, through `InstallFailed`.
- `Installer.JoinPath`: POSIX separator only. Node's normalisation of `.`, `..` and repeated separators inside the user-data path is not modelled. The model adds no separator after a directory that already ends in one.
- `clearBrowserCache` (src/index.ts:144-151) and `getInstalledBrowserList` (src/index.ts:136-139) only pass calls through to `fs.rm` and to the library's inventory query. They are not modelled. That includes the blanket error swallowing at src/index.ts:146-150.
- Asynchrony: concurrent installs into one cache directory are not coordinated by the source. The model runs each call to completion in sequence.
- The JavaScript `in` operator at src/index.ts:19 also accepts inherited property names such as `toString`. The model recognises only the five own keys of the alias table.
- `BrowserPlatform` values are opaque strings. The source checks only that the platform is truthy, and so does the model.
