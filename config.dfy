/**
 * The constant vocabulary of the facade (src/config.ts): the browsers of the
 * provisioning library, the alias table, the default browser and the name of
 * the cache sub-directory.
 */
module Config {

  /** The browsers the provisioning library knows about (its `Browser` enum). */
  datatype Browser = Chrome | ChromeHeadlessShell | Chromium | Firefox | ChromeDriver

  /** The string value of each `Browser` member, as the provisioning library defines it. */
  function Id(b: Browser): string
  {
    match b
    case Chrome => "chrome"
    case ChromeHeadlessShell => "chrome-headless-shell"
    case Chromium => "chromium"
    case Firefox => "firefox"
    case ChromeDriver => "chromedriver"
  }

  /** Distinct browsers have distinct identifiers. */
  lemma IdInjective(a: Browser, b: Browser)
    ensures Id(a) == Id(b) ==> a == b
  {
  }

  /** The browser installed when the caller names none. */
  const DEFAULT_BROWSER: Browser := Chrome

  /** The sub-directory of the user-data directory that holds the browsers. */
  const CACHE_DIR_NAME: string := "puppeteer-browsers"

  /** The alias table: five case-sensitive keys, each naming one browser. */
  const BROWSER_ALIASES: map<string, Browser> := map[
    "chrome" := Chrome,
    "chromium" := Chromium,
    "firefox" := Firefox,
    "chromedriver" := ChromeDriver,
    "chromeheadlessshell" := ChromeHeadlessShell
  ]

  /** The `BrowserAlias` type: exactly the key set of the alias table. */
  predicate IsBrowserAlias(s: string)
  {
    s in BROWSER_ALIASES
  }

  /** The alias keys are exactly these five strings, each mapped as listed. */
  lemma AliasTable()
    ensures BROWSER_ALIASES.Keys == {"chrome", "chromium", "firefox", "chromedriver", "chromeheadlessshell"}
    ensures |BROWSER_ALIASES| == 5
    ensures BROWSER_ALIASES["chrome"] == Chrome
    ensures BROWSER_ALIASES["chromium"] == Chromium
    ensures BROWSER_ALIASES["firefox"] == Firefox
    ensures BROWSER_ALIASES["chromedriver"] == ChromeDriver
    ensures BROWSER_ALIASES["chromeheadlessshell"] == ChromeHeadlessShell
  {
  }

  /** Every browser is reachable through exactly one alias key. */
  lemma AliasTableIsBijective(b: Browser)
    ensures exists k :: k in BROWSER_ALIASES && BROWSER_ALIASES[k] == b
    ensures forall k, k' :: k in BROWSER_ALIASES && k' in BROWSER_ALIASES && BROWSER_ALIASES[k] == b && BROWSER_ALIASES[k'] == b ==> k == k'
  {
    match b
    case Chrome => assert BROWSER_ALIASES["chrome"] == b;
    case ChromeHeadlessShell => assert BROWSER_ALIASES["chromeheadlessshell"] == b;
    case Chromium => assert BROWSER_ALIASES["chromium"] == b;
    case Firefox => assert BROWSER_ALIASES["firefox"] == b;
    case ChromeDriver => assert BROWSER_ALIASES["chromedriver"] == b;
  }
}
