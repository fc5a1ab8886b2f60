/**
 * The installer facade (src/index.ts): alias resolution, the default cache
 * directory, and the reuse-or-install rule of installBrowser with its three
 * single-browser wrappers.
 *
 * The provisioning library, the file system and Electron are abstracted away:
 * the user-data path and the detected platform are constants of a `Host`, the
 * inventory of each cache directory and the set of existing paths are its
 * state, and the external install operation only records the request it was
 * given and hands back a caller-supplied `InstallOutcome`.
 */
module Installer {
  import opened Types
  import opened Config

  /** The build requested from the provisioning library when none was given. */
  const LATEST: string := "latest"

  // ---------------------------------------------------------------------------
  // Paths
  // ---------------------------------------------------------------------------

  /** POSIX `path.join` of a directory and one path segment. */
  function JoinPath(dir: string, name: string): (r: string)
    ensures dir <= r
    ensures |name| <= |r| && r[|r| - |name|..] == name
    ensures dir != "" ==> |name| < |r| && r[|r| - |name| - 1] == '/'
    ensures |r| == |dir| + |name| + (if dir == "" || dir[|dir| - 1] == '/' then 0 else 1)
  {
    if dir == "" then name
    else if dir[|dir| - 1] == '/' then dir + name
    else dir + "/" + name
  }

  /** The cache directory used when the caller supplies none: the user-data directory joined with the cache name. */
  function DefaultCacheDir(userData: string): (r: string)
    ensures userData <= r
    ensures |CACHE_DIR_NAME| <= |r| && r[|r| - |CACHE_DIR_NAME|..] == CACHE_DIR_NAME
    ensures userData != "" ==> |CACHE_DIR_NAME| < |r| && r[|r| - |CACHE_DIR_NAME| - 1] == '/'
    ensures |r| == |userData| + |CACHE_DIR_NAME| + (if userData == "" || userData[|userData| - 1] == '/' then 0 else 1)
  {
    JoinPath(userData, CACHE_DIR_NAME)
  }

  // ---------------------------------------------------------------------------
  // Alias resolution
  // ---------------------------------------------------------------------------

  /**
   * Maps an alias key to its browser's identifier and passes every other string
   * through unchanged. Only one alias key differs from its identifier, so the
   * only string resolution ever changes is "chromeheadlessshell".
   */
  function ResolveBrowser(browser: string): (r: string)
    ensures r == (if browser == "chromeheadlessshell" then Id(ChromeHeadlessShell) else browser)
  {
    if IsBrowserAlias(browser) then Id(BROWSER_ALIASES[browser]) else browser
  }

  /** An alias key resolves to the identifier of the browser the table names. */
  lemma ResolveAlias(k: string)
    requires IsBrowserAlias(k)
    ensures ResolveBrowser(k) == Id(BROWSER_ALIASES[k])
  {
  }

  /** A string that is not an alias key is returned unchanged. */
  lemma ResolvePassesThrough(s: string)
    requires !IsBrowserAlias(s)
    ensures ResolveBrowser(s) == s
  {
  }

  /** The five alias keys resolve to the five browsers. */
  lemma ResolveKnownAliases()
    ensures ResolveBrowser("chrome") == Id(Chrome)
    ensures ResolveBrowser("chromium") == Id(Chromium)
    ensures ResolveBrowser("firefox") == Id(Firefox)
    ensures ResolveBrowser("chromedriver") == Id(ChromeDriver)
    ensures ResolveBrowser("chromeheadlessshell") == Id(ChromeHeadlessShell)
  {
  }

  /** Distinct alias keys resolve to distinct identifiers. */
  lemma ResolveAliasesInjective(k: string, k': string)
    requires IsBrowserAlias(k) && IsBrowserAlias(k')
    ensures ResolveBrowser(k) == ResolveBrowser(k') ==> k == k'
  {
    if ResolveBrowser(k) == ResolveBrowser(k') {
      IdInjective(BROWSER_ALIASES[k], BROWSER_ALIASES[k']);
      AliasTableIsBijective(BROWSER_ALIASES[k]);
    }
  }

  /** A canonical identifier resolves to itself. */
  lemma ResolveFixesIds(b: Browser)
    ensures ResolveBrowser(Id(b)) == Id(b)
  {
  }

  /** Resolving twice gives the same answer as resolving once. */
  lemma ResolveIdempotent(s: string)
    ensures ResolveBrowser(ResolveBrowser(s)) == ResolveBrowser(s)
  {
  }

  // ---------------------------------------------------------------------------
  // Settling the options
  // ---------------------------------------------------------------------------

  /** JavaScript falsiness of the optional build id: undefined and "" both count as unset. */
  predicate BuildIdUnset(buildId: Option<string>)
  {
    buildId.None? || buildId.value == ""
  }

  /** `buildId || 'latest'`: the build id handed to the external install. */
  function InstallBuildId(buildId: Option<string>): (r: string)
    ensures r != ""
    ensures BuildIdUnset(buildId) ==> r == LATEST
    ensures !BuildIdUnset(buildId) ==> r == buildId.value
  {
    if BuildIdUnset(buildId) then LATEST else buildId.value
  }

  /** JavaScript truthiness of the optional platform. */
  predicate PlatformUsable(platform: Option<string>)
  {
    platform.Some? && platform.value != ""
  }

  /** The options after defaults are applied and the browser is resolved. */
  datatype Settings = Settings(
    browser: string,
    buildId: Option<string>,
    cacheDir: string,
    platform: Option<string>,
    force: bool)

  /**
   * The destructuring of installBrowser's options: each default applies only
   * when the property is undefined, and detection is consulted only then.
   */
  function Settle(o: InstallOptions, userData: string, detected: Option<string>): Settings
  {
    Settings(
      ResolveBrowser(if o.browser.Some? then o.browser.value else Id(DEFAULT_BROWSER)),
      o.buildId,
      if o.cacheDir.Some? then o.cacheDir.value else DefaultCacheDir(userData),
      if o.platform.Some? then o.platform else detected,
      if o.force.Some? then o.force.value else false)
  }

  /** With no options at all, Chrome is installed, any build matches, and the default cache directory and detected platform are used. */
  lemma SettleDefaults(userData: string, detected: Option<string>)
    ensures Settle(NoOptions, userData, detected) ==
      Settings(Id(Chrome), None, DefaultCacheDir(userData), detected, false)
  {
  }

  // ---------------------------------------------------------------------------
  // The inventory match
  // ---------------------------------------------------------------------------

  /** The `find` predicate: same browser, and the same build unless none was requested. */
  predicate Matches(rec: InstalledBrowser, browser: string, buildId: Option<string>)
  {
    rec.browser == browser && (BuildIdUnset(buildId) || rec.buildId == buildId.value)
  }

  /** Entry `i` matches and no earlier entry does. */
  predicate IsFirstMatch(inventory: seq<InstalledBrowser>, i: int, browser: string, buildId: Option<string>)
  {
    && 0 <= i < |inventory|
    && Matches(inventory[i], browser, buildId)
    && forall j :: 0 <= j < i ==> !Matches(inventory[j], browser, buildId)
  }

  /** At most one entry is the first match. */
  lemma FirstMatchUnique(inventory: seq<InstalledBrowser>, i: int, k: int, browser: string, buildId: Option<string>)
    requires IsFirstMatch(inventory, i, browser, buildId)
    requires IsFirstMatch(inventory, k, browser, buildId)
    ensures i == k
  {
  }

  /** `Array.prototype.find`, giving the position of the first matching entry. */
  function FindMatch(inventory: seq<InstalledBrowser>, browser: string, buildId: Option<string>): (r: Option<nat>)
    ensures r.Some? ==> IsFirstMatch(inventory, r.value, browser, buildId)
    ensures r.None? ==> forall j :: 0 <= j < |inventory| ==> !Matches(inventory[j], browser, buildId)
    decreases |inventory|
  {
    if |inventory| == 0 then None
    else if Matches(inventory[0], browser, buildId) then Some(0)
    else
      match FindMatch(inventory[1..], browser, buildId)
      case None => None
      case Some(i) => Some(i + 1)
  }

  // ---------------------------------------------------------------------------
  // The reuse-or-install decision
  // ---------------------------------------------------------------------------

  /** The arguments installBrowser hands to the external install operation. */
  datatype InstallRequest = InstallRequest(
    browser: string,
    buildId: string,
    cacheDir: string,
    platform: string,
    unpack: bool)

  /** What the external install operation reports back. */
  datatype InstallOutcome =
    | Installed(buildId: string, executablePath: string)
    | InstallFailed(message: string)

  /** Which of its three exits installBrowser takes. */
  datatype Decision =
    | NoPlatform
    | Reuse(record: InstalledBrowser)
    | Install(request: InstallRequest)

  /**
   * The decision taken from the settled options, the inventory of the cache
   * directory and the paths that exist once the cache directory is created.
   */
  function Decide(s: Settings, inventory: seq<InstalledBrowser>, existing: set<string>): (d: Decision)
    ensures d.NoPlatform? <==> !PlatformUsable(s.platform)
    ensures d.Install? ==>
      PlatformUsable(s.platform) &&
      d.request == InstallRequest(s.browser, InstallBuildId(s.buildId), s.cacheDir, s.platform.value, true)
    ensures s.force && PlatformUsable(s.platform) ==> d.Install?
    ensures d.Reuse? ==>
      && !s.force
      && (exists i :: IsFirstMatch(inventory, i, s.browser, s.buildId) && inventory[i] == d.record)
      && d.record.executablePath in existing
    ensures forall i :: IsFirstMatch(inventory, i, s.browser, s.buildId) ==>
      (PlatformUsable(s.platform) && !s.force && inventory[i].executablePath in existing ==> d == Reuse(inventory[i]))
    ensures forall i :: IsFirstMatch(inventory, i, s.browser, s.buildId) ==>
      (PlatformUsable(s.platform) && inventory[i].executablePath !in existing ==> d.Install?)
    ensures PlatformUsable(s.platform) && (forall j :: 0 <= j < |inventory| ==> !Matches(inventory[j], s.browser, s.buildId)) ==>
      d.Install?
  {
    if !PlatformUsable(s.platform) then NoPlatform
    else
      var found := if s.force then None else FindMatch(inventory, s.browser, s.buildId);
      if found.Some? && inventory[found.value].executablePath in existing then
        Reuse(inventory[found.value])
      else
        Install(InstallRequest(s.browser, InstallBuildId(s.buildId), s.cacheDir, s.platform.value, true))
  }

  /** The value installBrowser returns or the error it throws, for a decision. */
  function Respond(s: Settings, d: Decision, outcome: InstallOutcome): (r: Result<InstallResult>)
    ensures d.NoPlatform? <==> r == Err(CouldNotDetectPlatform)
    ensures r.Ok? ==> r.value.browser == s.browser
    ensures r.Ok? ==> (r.value.wasInstalled <==> d.Install?)
    ensures r.Ok? && !r.value.wasInstalled ==>
      d.Reuse? && r.value.executablePath == d.record.executablePath && r.value.buildId == d.record.buildId
    ensures r.Ok? && r.value.wasInstalled ==>
      outcome.Installed? && r.value.executablePath == outcome.executablePath && r.value.buildId == outcome.buildId
    ensures d.Install? && outcome.InstallFailed? ==> r == Err(ExternalInstallFailed(outcome.message))
    ensures d.Reuse? ==> r == Ok(InstallResult(d.record.executablePath, s.browser, d.record.buildId, false))
    ensures d.Install? && outcome.Installed? ==>
      r == Ok(InstallResult(outcome.executablePath, s.browser, outcome.buildId, true))
  {
    match d
    case NoPlatform => Err(CouldNotDetectPlatform)
    case Reuse(rec) => Ok(InstallResult(rec.executablePath, s.browser, rec.buildId, false))
    case Install(_) =>
      match outcome
      case Installed(buildId, path) => Ok(InstallResult(path, s.browser, buildId, true))
      case InstallFailed(message) => Err(ExternalInstallFailed(message))
  }

  // ---------------------------------------------------------------------------
  // installBrowser as a step on the abstract host state
  // ---------------------------------------------------------------------------

  /**
   * The state installBrowser can observe or change: the inventory the library
   * reports for each cache directory, the paths that exist, and the logs of the
   * inventory queries and install calls made so far.
   */
  datatype HostState = HostState(
    inventories: map<string, seq<InstalledBrowser>>,
    existing: set<string>,
    queries: seq<string>,
    calls: seq<InstallRequest>)

  /** The inventory of a cache directory; a directory the library knows nothing of holds no browsers. */
  function InventoryAt(inventories: map<string, seq<InstalledBrowser>>, dir: string): seq<InstalledBrowser>
  {
    if dir in inventories then inventories[dir] else []
  }

  /**
   * One call of installBrowser: its result and the state after it. The
   * platform check comes first; then the cache directory is created; unless
   * forced, the inventory is queried and the first match reused if its
   * executable exists; otherwise the external install is called.
   */
  function InstallStep(o: InstallOptions, userData: string, detected: Option<string>, st: HostState, outcome: InstallOutcome)
    : (Result<InstallResult>, HostState)
  {
    SettledStep(Settle(o, userData, detected), st, outcome)
  }

  /** InstallStep once the options are settled. */
  function SettledStep(s: Settings, st: HostState, outcome: InstallOutcome): (Result<InstallResult>, HostState)
  {
    if !PlatformUsable(s.platform) then
      (Err(CouldNotDetectPlatform), st)
    else
      var created := st.(existing := st.existing + {s.cacheDir});
      var queried := if s.force then created else created.(queries := created.queries + [s.cacheDir]);
      var d := Decide(s, InventoryAt(st.inventories, s.cacheDir), created.existing);
      var after := if d.Install? then queried.(calls := queried.calls + [d.request]) else queried;
      (Respond(s, d, outcome), after)
  }

  /** The reuse exit, spelled out. */
  lemma StepReuses(s: Settings, st: HostState, outcome: InstallOutcome, i: nat)
    requires PlatformUsable(s.platform) && !s.force
    requires FindMatch(InventoryAt(st.inventories, s.cacheDir), s.browser, s.buildId) == Some(i)
    requires InventoryAt(st.inventories, s.cacheDir)[i].executablePath in st.existing + {s.cacheDir}
    ensures var rec := InventoryAt(st.inventories, s.cacheDir)[i];
      SettledStep(s, st, outcome) ==
        (Ok(InstallResult(rec.executablePath, s.browser, rec.buildId, false)),
         st.(existing := st.existing + {s.cacheDir}, queries := st.queries + [s.cacheDir]))
  {
  }

  /** The install exit, spelled out. */
  lemma StepInstalls(s: Settings, st: HostState, outcome: InstallOutcome)
    requires PlatformUsable(s.platform)
    requires var found := FindMatch(InventoryAt(st.inventories, s.cacheDir), s.browser, s.buildId);
      s.force || found.None? ||
      InventoryAt(st.inventories, s.cacheDir)[found.value].executablePath !in st.existing + {s.cacheDir}
    ensures var request := InstallRequest(s.browser, InstallBuildId(s.buildId), s.cacheDir, s.platform.value, true);
      SettledStep(s, st, outcome) ==
        (Respond(s, Install(request), outcome),
         st.(existing := st.existing + {s.cacheDir},
             queries := if s.force then st.queries else st.queries + [s.cacheDir],
             calls := st.calls + [request]))
  {
  }

  /** Without a usable platform (none given and none detected, or an empty one), installBrowser throws and creates, queries and installs nothing. */
  lemma NoPlatformChangesNothing(o: InstallOptions, userData: string, detected: Option<string>, st: HostState, outcome: InstallOutcome)
    requires !PlatformUsable(Settle(o, userData, detected).platform)
    ensures InstallStep(o, userData, detected, st, outcome) == (Err(CouldNotDetectPlatform), st)
  {
  }

  /** With a platform, the cache directory exists afterwards and no other path is added. */
  lemma CacheDirCreated(o: InstallOptions, userData: string, detected: Option<string>, st: HostState, outcome: InstallOutcome)
    requires PlatformUsable(Settle(o, userData, detected).platform)
    ensures InstallStep(o, userData, detected, st, outcome).1.existing ==
      st.existing + {Settle(o, userData, detected).cacheDir}
    ensures InstallStep(o, userData, detected, st, outcome).1.inventories == st.inventories
  {
  }

  /**
   * With `force`, the inventory is not queried, the external install is
   * called exactly once, and a successful result is a fresh installation.
   */
  lemma ForceAlwaysInstalls(o: InstallOptions, userData: string, detected: Option<string>, st: HostState, outcome: InstallOutcome)
    requires o.force == Some(true)
    requires PlatformUsable(Settle(o, userData, detected).platform)
    ensures var (r, after) := InstallStep(o, userData, detected, st, outcome);
      && after.queries == st.queries
      && |after.calls| == |st.calls| + 1
      && (r.Ok? ==> r.value.wasInstalled)
      && (outcome.Installed? ==>
           r == Ok(InstallResult(outcome.executablePath, Settle(o, userData, detected).browser, outcome.buildId, true)))
      && (outcome.InstallFailed? ==> r == Err(ExternalInstallFailed(outcome.message)))
  {
  }

  /** With `force`, neither the inventory nor the existing paths influence the result. */
  lemma ForceIgnoresInventory(o: InstallOptions, userData: string, detected: Option<string>, st1: HostState, st2: HostState, outcome: InstallOutcome)
    requires o.force == Some(true)
    ensures InstallStep(o, userData, detected, st1, outcome).0 == InstallStep(o, userData, detected, st2, outcome).0
  {
  }

  /**
   * A reused installation is the first inventory entry for the resolved
   * browser (and the requested build, if one was given), its executable
   * exists, and the result carries that entry's build id and path.
   */
  lemma ReuseIsFirstMatch(o: InstallOptions, userData: string, detected: Option<string>, st: HostState, outcome: InstallOutcome)
    requires InstallStep(o, userData, detected, st, outcome).0.Ok?
    requires !InstallStep(o, userData, detected, st, outcome).0.value.wasInstalled
    ensures var s := Settle(o, userData, detected);
      var inventory := InventoryAt(st.inventories, s.cacheDir);
      var res := InstallStep(o, userData, detected, st, outcome).0.value;
      && !s.force
      && (exists i :: IsFirstMatch(inventory, i, s.browser, s.buildId)
           && res.executablePath == inventory[i].executablePath
           && res.buildId == inventory[i].buildId)
      && res.executablePath in st.existing + {s.cacheDir}
      && InstallStep(o, userData, detected, st, outcome).1.calls == st.calls
  {
  }

  /**
   * Only the first match is tried: when its executable is missing the
   * external install is called, whatever later entries hold.
   */
  lemma FirstMatchOnly(o: InstallOptions, userData: string, detected: Option<string>, st: HostState, outcome: InstallOutcome, i: int)
    requires PlatformUsable(Settle(o, userData, detected).platform)
    requires var s := Settle(o, userData, detected);
      IsFirstMatch(InventoryAt(st.inventories, s.cacheDir), i, s.browser, s.buildId)
    requires var s := Settle(o, userData, detected);
      InventoryAt(st.inventories, s.cacheDir)[i].executablePath !in st.existing + {s.cacheDir}
    ensures var (r, after) := InstallStep(o, userData, detected, st, outcome);
      && |after.calls| == |st.calls| + 1
      && (r.Ok? ==> r.value.wasInstalled)
      && (outcome.Installed? ==>
           r == Ok(InstallResult(outcome.executablePath, Settle(o, userData, detected).browser, outcome.buildId, true)))
      && (outcome.InstallFailed? ==> r == Err(ExternalInstallFailed(outcome.message)))
  {
  }

  /** The external install is asked for the requested build, or for "latest" when none (or "") was requested. */
  lemma InstallRequestsBuild(o: InstallOptions, userData: string, detected: Option<string>, st: HostState, outcome: InstallOutcome)
    ensures var after := InstallStep(o, userData, detected, st, outcome).1;
      |after.calls| == |st.calls| + 1 ==>
      && after.calls[..|st.calls|] == st.calls
      && after.calls[|st.calls|].buildId == (if BuildIdUnset(o.buildId) then LATEST else o.buildId.value)
      && after.calls[|st.calls|].browser == Settle(o, userData, detected).browser
      && after.calls[|st.calls|].unpack
    ensures |InstallStep(o, userData, detected, st, outcome).1.calls| <= |st.calls| + 1
  {
  }

  /** An empty build id behaves exactly like an omitted one, in matching and in installing. */
  lemma EmptyBuildIdIsUnset(o: InstallOptions, userData: string, detected: Option<string>, st: HostState, outcome: InstallOutcome)
    ensures InstallStep(o.(buildId := Some("")), userData, detected, st, outcome) ==
            InstallStep(o.(buildId := None), userData, detected, st, outcome)
  {
  }

  /** Matching with build id "" is matching with no build id. */
  lemma FindMatchUnsetBuild(inventory: seq<InstalledBrowser>, browser: string)
    ensures FindMatch(inventory, browser, Some("")) == FindMatch(inventory, browser, None)
  {
  }

  /** Every result names the resolved browser, Chrome when the caller named none. */
  lemma ResultNamesResolvedBrowser(o: InstallOptions, userData: string, detected: Option<string>, st: HostState, outcome: InstallOutcome)
    requires InstallStep(o, userData, detected, st, outcome).0.Ok?
    ensures InstallStep(o, userData, detected, st, outcome).0.value.browser ==
      ResolveBrowser(if o.browser.Some? then o.browser.value else Id(DEFAULT_BROWSER))
    ensures o.browser.None? ==> InstallStep(o, userData, detected, st, outcome).0.value.browser == "chrome"
  {
  }

  // ---------------------------------------------------------------------------
  // The convenience wrappers
  // ---------------------------------------------------------------------------

  /** The options object a wrapper builds: its fixed browser, plus the build id when one is given. */
  function WrapperOptions(b: Browser, buildId: Option<string>): InstallOptions
  {
    NoOptions.(browser := Some(Id(b)), buildId := buildId)
  }

  /** The executable path of a result; errors pass through. */
  function PathOf(r: Result<InstallResult>): Result<string>
  {
    match r
    case Ok(res) => Ok(res.executablePath)
    case Err(e) => Err(e)
  }

  /** A wrapper installs, or reuses, exactly the browser it fixes, with the caller's build id. */
  lemma WrapperRequestsItsBrowser(b: Browser, buildId: Option<string>, userData: string, detected: Option<string>)
    ensures Settle(WrapperOptions(b, buildId), userData, detected) ==
      Settings(Id(b), buildId, DefaultCacheDir(userData), detected, false)
  {
  }

  // ---------------------------------------------------------------------------
  // The host: file system, inventory and external install as mutable state
  // ---------------------------------------------------------------------------

  class Host {
    /** Electron's `app.getPath('userData')`. */
    const userData: string
    /** What `detectBrowserPlatform()` yields on this machine. */
    const detectedPlatform: Option<string>

    var inventories: map<string, seq<InstalledBrowser>>
    var existing: set<string>
    var queries: seq<string>
    var calls: seq<InstallRequest>

    function State(): HostState
      reads this
    {
      HostState(inventories, existing, queries, calls)
    }

    constructor (userData: string, detectedPlatform: Option<string>,
                 inventories: map<string, seq<InstalledBrowser>>, existing: set<string>)
      ensures this.userData == userData && this.detectedPlatform == detectedPlatform
      ensures State() == HostState(inventories, existing, [], [])
    {
      this.userData := userData;
      this.detectedPlatform := detectedPlatform;
      this.inventories := inventories;
      this.existing := existing;
      this.queries := [];
      this.calls := [];
    }

    /** `fs.access` folded into a boolean. */
    method BrowserExists(executablePath: string) returns (present: bool)
      ensures present <==> executablePath in existing
    {
      present := executablePath in existing;
    }

    /** `fs.mkdir(dir, { recursive: true })`: idempotent insertion. */
    method MakeDirectory(dir: string)
      modifies this
      ensures State() == old(State()).(existing := old(existing) + {dir})
    {
      existing := existing + {dir};
    }

    /** `getInstalledBrowsers({ cacheDir })`. */
    method GetInstalledBrowsers(cacheDir: string) returns (inventory: seq<InstalledBrowser>)
      modifies this
      ensures inventory == InventoryAt(inventories, cacheDir)
      ensures State() == old(State()).(queries := old(queries) + [cacheDir])
    {
      inventory := InventoryAt(inventories, cacheDir);
      queries := queries + [cacheDir];
    }

    /** The external `install`: records the request and reports the given outcome. */
    method ExternalInstall(request: InstallRequest, outcome: InstallOutcome) returns (reported: InstallOutcome)
      modifies this
      ensures reported == outcome
      ensures State() == old(State()).(calls := old(calls) + [request])
    {
      calls := calls + [request];
      reported := outcome;
    }

    /** `installBrowser(options)`, where `outcome` is what the external install would report. */
    method InstallBrowser(options: InstallOptions, outcome: InstallOutcome) returns (r: Result<InstallResult>)
      modifies this
      ensures (r, State()) == InstallStep(options, userData, detectedPlatform, old(State()), outcome)
    {
      // The destructuring with defaults and the alias resolution.
      var settings := Settle(options, userData, detectedPlatform);
      var resolvedBrowser, buildId, cacheDir, platform, force :=
        settings.browser, settings.buildId, settings.cacheDir, settings.platform, settings.force;
      ghost var before := State();

      if !PlatformUsable(platform) {
        return Err(CouldNotDetectPlatform);
      }

      MakeDirectory(cacheDir);

      if !force {
        var installed := GetInstalledBrowsers(cacheDir);
        var found := FindMatch(installed, resolvedBrowser, buildId);
        if found.Some? {
          var existingBrowser := installed[found.value];
          var present := BrowserExists(existingBrowser.executablePath);
          if present {
            StepReuses(settings, before, outcome, found.value);
            return Ok(InstallResult(existingBrowser.executablePath, resolvedBrowser, existingBrowser.buildId, false));
          }
        }
      }

      var request := InstallRequest(resolvedBrowser, InstallBuildId(buildId), cacheDir, platform.value, true);
      StepInstalls(settings, before, outcome);
      var reported := ExternalInstall(request, outcome);
      match reported
      case Installed(installedBuild, path) =>
        r := Ok(InstallResult(path, resolvedBrowser, installedBuild, true));
      case InstallFailed(message) =>
        r := Err(ExternalInstallFailed(message));
    }

    /** `installAndGetChromiumPath(buildId?)`: installs Chrome, despite its name. */
    method InstallAndGetChromiumPath(buildId: Option<string>, outcome: InstallOutcome) returns (r: Result<string>)
      modifies this
      ensures (r, State()) == var (res, after) := InstallStep(WrapperOptions(Chrome, buildId), userData, detectedPlatform, old(State()), outcome);
        (PathOf(res), after)
    {
      var options := NoOptions.(browser := Some(Id(Chrome)));
      if buildId.Some? {
        options := options.(buildId := buildId);
      }
      var result := InstallBrowser(options, outcome);
      r := PathOf(result);
    }

    /** `installAndGetChromePath(buildId?)`: installs Chromium, despite its name. */
    method InstallAndGetChromePath(buildId: Option<string>, outcome: InstallOutcome) returns (r: Result<string>)
      modifies this
      ensures (r, State()) == var (res, after) := InstallStep(WrapperOptions(Chromium, buildId), userData, detectedPlatform, old(State()), outcome);
        (PathOf(res), after)
    {
      var options := NoOptions.(browser := Some(Id(Chromium)));
      if buildId.Some? {
        options := options.(buildId := buildId);
      }
      var result := InstallBrowser(options, outcome);
      r := PathOf(result);
    }

    /** `installAndGetFirefoxPath(buildId?)`: installs Firefox. */
    method InstallAndGetFirefoxPath(buildId: Option<string>, outcome: InstallOutcome) returns (r: Result<string>)
      modifies this
      ensures (r, State()) == var (res, after) := InstallStep(WrapperOptions(Firefox, buildId), userData, detectedPlatform, old(State()), outcome);
        (PathOf(res), after)
    {
      var options := NoOptions.(browser := Some(Id(Firefox)));
      if buildId.Some? {
        options := options.(buildId := buildId);
      }
      var result := InstallBrowser(options, outcome);
      r := PathOf(result);
    }

    /** `getChromiumPath`: the deprecated name bound to installAndGetChromiumPath. */
    method GetChromiumPath(buildId: Option<string>, outcome: InstallOutcome) returns (r: Result<string>)
      modifies this
      ensures (r, State()) == var (res, after) := InstallStep(WrapperOptions(Chrome, buildId), userData, detectedPlatform, old(State()), outcome);
        (PathOf(res), after)
    {
      r := InstallAndGetChromiumPath(buildId, outcome);
    }
  }
}
