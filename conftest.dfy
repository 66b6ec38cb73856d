/**
 * Session configuration and browser dispatch of the test suite's pytest
 * hooks and fixtures: reading config/config.json, resolving the browser,
 * headless mode and window size against the command line, choosing how the
 * WebDriver session is started, preparing the session, the fixed view
 * sizes, and where the HTML report goes.
 */
module Conftest {
  import opened Wrappers
  import opened Paths

  /** A browser window size in pixels. */
  datatype WindowSize = WindowSize(width: int, height: int)

  /** The keys config/config.json may hold; an absent key is `None`. */
  datatype Settings = Settings(
    browser: Option<string>,
    headless: Option<bool>,
    windowSize: Option<WindowSize>,
    reportsPath: Option<string>)

  const DefaultBrowser := "chrome"
  const DefaultWindowSize := WindowSize(1920, 1080)
  const DefaultReportsPath := "./reports"

  /** The settings `load_config` returns when the file does not exist. */
  const DefaultSettings := Settings(Some(DefaultBrowser), Some(false), Some(DefaultWindowSize), Some(DefaultReportsPath))

  /** A configuration file holding none of the keys. */
  const NoSettings: Settings := Settings(None, None, None, None)

  /** What opening and parsing config/config.json gave. */
  datatype ConfigRead =
    | Parsed(settings: Settings)
    | FileNotFound
    | ReadError(reason: string)   // any other exception of `open` or `json.load`

  /** An exception `load_config` lets propagate. */
  datatype ConfigError = ConfigError(reason: string)

  /**
   * `load_config`: the parsed file, the defaults when the file is missing,
   * and every other failure propagated.
   */
  function LoadConfig(read: ConfigRead): (r: Result<Settings, ConfigError>)
    ensures r.Failure? <==> read.ReadError?
    ensures r.Failure? ==> r.error.reason == read.reason
    ensures read.FileNotFound? ==> r == Success(DefaultSettings)
    ensures read.Parsed? ==> r == Success(read.settings)
  {
    match read
    case Parsed(s) => Success(s)
    case FileNotFound => Success(DefaultSettings)
    case ReadError(reason) => Failure(ConfigError(reason))
  }

  // ---------------------------------------------------------------------
  // Resolution of the effective configuration

  /** The `--browser` value that means "take it from the configuration file". */
  const BrowserFromConfig := "default"

  /** The configuration one test session runs with. */
  datatype Effective = Effective(browser: string, headless: bool, windowSize: WindowSize)

  /**
   * The `--headless` option: `store_true` with default `None`, so it is
   * `True` when the flag is given and `None` otherwise.
   */
  function HeadlessOption(flagGiven: bool): (h: Option<bool>)
    ensures h.Some? <==> flagGiven
    ensures h.Some? ==> h.value
  {
    if flagGiven then Some(true) else None
  }

  /** The browser, headless mode and window size the `driver` fixture resolves. */
  function Resolve(cliBrowser: string, cliHeadless: Option<bool>, settings: Settings): (e: Effective)
    ensures cliBrowser != BrowserFromConfig ==> e.browser == cliBrowser
    ensures cliBrowser == BrowserFromConfig && settings.browser.Some? ==> e.browser == settings.browser.value
    ensures cliBrowser == BrowserFromConfig && settings.browser.None? ==> e.browser == DefaultBrowser
    ensures cliHeadless.Some? ==> e.headless == cliHeadless.value
    ensures cliHeadless.None? ==> e.headless == settings.headless.GetOr(false)
    ensures e.windowSize == settings.windowSize.GetOr(DefaultWindowSize)
  {
    var browser := if cliBrowser != BrowserFromConfig then cliBrowser else settings.browser.GetOr(DefaultBrowser);
    var headless := if cliHeadless.None? then settings.headless.GetOr(false) else cliHeadless.value;
    Effective(browser, headless, settings.windowSize.GetOr(DefaultWindowSize))
  }

  /**
   * With the real command-line options the headless mode is the flag OR the
   * file's setting: the flag can switch headless on but never off.
   */
  lemma HeadlessFlagOrConfig(cliBrowser: string, flagGiven: bool, settings: Settings)
    ensures Resolve(cliBrowser, HeadlessOption(flagGiven), settings).headless
            == (flagGiven || settings.headless.GetOr(false))
  {
  }

  /**
   * Fields resolve independently: each resolved field depends only on its
   * own command-line value and its own key of the file.
   */
  lemma FieldsResolveIndependently(cliBrowser: string, cliHeadless: Option<bool>, s: Settings, t: Settings)
    ensures s.browser == t.browser ==> Resolve(cliBrowser, cliHeadless, s).browser == Resolve(cliBrowser, cliHeadless, t).browser
    ensures s.headless == t.headless ==> Resolve(cliBrowser, cliHeadless, s).headless == Resolve(cliBrowser, cliHeadless, t).headless
    ensures s.windowSize == t.windowSize ==> Resolve(cliBrowser, cliHeadless, s).windowSize == Resolve(cliBrowser, cliHeadless, t).windowSize
    ensures cliBrowser != BrowserFromConfig ==> Resolve(cliBrowser, cliHeadless, s).browser == Resolve(cliBrowser, cliHeadless, t).browser
    ensures cliHeadless.Some? ==> Resolve(cliBrowser, cliHeadless, s).headless == Resolve(cliBrowser, cliHeadless, t).headless
  {
  }

  /**
   * The defaults `load_config` substitutes for a missing file resolve exactly
   * as a file holding no keys at all would.
   */
  lemma DefaultsAgreeWithAbsentKeys(cliBrowser: string, cliHeadless: Option<bool>)
    ensures Resolve(cliBrowser, cliHeadless, DefaultSettings) == Resolve(cliBrowser, cliHeadless, NoSettings)
    ensures DefaultSettings.reportsPath.GetOr(DefaultReportsPath) == NoSettings.reportsPath.GetOr(DefaultReportsPath)
  {
  }

  /** Without a configuration file and without options: chrome, not headless, 1920x1080. */
  lemma MissingFileDefaults()
    ensures LoadConfig(FileNotFound).Success?
    ensures Resolve(BrowserFromConfig, HeadlessOption(false), LoadConfig(FileNotFound).value)
            == Effective("chrome", false, WindowSize(1920, 1080))
  {
  }

  // ---------------------------------------------------------------------
  // Browser dispatch

  /** The browsers the `driver` fixture can start. */
  datatype BrowserKind = Edge | Firefox | Chrome

  /** The `--browser` / config value naming each browser. */
  function BrowserName(k: BrowserKind): (r: string) {
    match k
    case Edge => "edge"
    case Firefox => "firefox"
    case Chrome => "chrome"
  }

  /** The `if`/`elif` chain of the `driver` fixture: the browser a name selects, if any. */
  function SupportedBrowser(name: string): (k: Option<BrowserKind>)
    ensures k.Some? ==> BrowserName(k.value) == name
    ensures k.None? ==> forall b :: BrowserName(b) != name
  {
    if name == "edge" then Some(Edge)
    else if name == "firefox" then Some(Firefox)
    else if name == "chrome" then Some(Chrome)
    else None
  }

  /** Every browser's own name selects it. */
  lemma SupportedBrowserRoundTrip(k: BrowserKind)
    ensures SupportedBrowser(BrowserName(k)) == Some(k)
  {
  }

  /** The argument that makes each browser headless. */
  function HeadlessArgument(k: BrowserKind): (r: string) {
    if k == Chrome then "--headless=new" else "--headless"
  }

  /** The arguments the fixture adds to the browser's options object. */
  function OptionArguments(k: BrowserKind, headless: bool): (args: seq<string>)
    ensures headless ==> args == [HeadlessArgument(k)]
    ensures !headless ==> args == []
  {
    if headless then [HeadlessArgument(k)] else []
  }

  /**
   * Exactly one headless argument is added, and only in headless mode:
   * `--headless=new` for chrome and `--headless` for edge and firefox.
   */
  lemma HeadlessArgumentChoice(k: BrowserKind, headless: bool)
    ensures |OptionArguments(k, headless)| == (if headless then 1 else 0)
    ensures "--headless=new" in OptionArguments(k, headless) <==> headless && k == Chrome
    ensures "--headless" in OptionArguments(k, headless) <==> headless && k != Chrome
  {
  }

  /** What `platform.system()` and `platform.machine()` report. */
  datatype Platform = Platform(system: string, machine: string)

  /** macOS on Apple Silicon. */
  predicate IsArm64Mac(p: Platform) {
    p.system == "Darwin" && p.machine == "arm64"
  }

  /** The webdriver_manager classes that download a driver binary. */
  datatype DriverManager = EdgeChromiumDriverManager | GeckoDriverManager | ChromeDriverManager

  /** The browser whose driver each manager installs. */
  function ManagedBrowser(m: DriverManager): (r: BrowserKind) {
    match m
    case EdgeChromiumDriverManager => Edge
    case GeckoDriverManager => Firefox
    case ChromeDriverManager => Chrome
  }

  /**
   * The driver manager whose `install()` provisions the driver binary, or
   * `None` when the browser starts with a driver already on the host.
   */
  function Provisioner(k: BrowserKind, p: Platform): (m: Option<DriverManager>)
    ensures m.None? <==> k == Chrome && IsArm64Mac(p)
    ensures m.Some? ==> ManagedBrowser(m.value) == k
  {
    match k
    case Edge => Some(EdgeChromiumDriverManager)
    case Firefox => Some(GeckoDriverManager)
    case Chrome => if IsArm64Mac(p) then None else Some(ChromeDriverManager)
  }

  /** How the fixture constructs the WebDriver: browser, option arguments, provisioning. */
  datatype Launch = Launch(kind: BrowserKind, arguments: seq<string>, provisioner: Option<DriverManager>)

  /** The exception the `driver` fixture raises for an unsupported browser. */
  datatype SessionError = TypeError(message: string)

  /** The browser-dispatch part of the `driver` fixture. */
  function PlanLaunch(e: Effective, p: Platform): (r: Result<Launch, SessionError>)
    ensures r.Failure? <==> forall b :: BrowserName(b) != e.browser
    ensures r.Failure? ==> r.error == TypeError("Automation does not support browser " + e.browser)
    ensures r.Success? ==> BrowserName(r.value.kind) == e.browser
    ensures r.Success? ==> r.value.arguments == OptionArguments(r.value.kind, e.headless)
    ensures r.Success? ==> r.value.provisioner == Provisioner(r.value.kind, p)
  {
    match SupportedBrowser(e.browser)
    case None => Failure(TypeError("Automation does not support browser " + e.browser))
    case Some(k) => Success(Launch(k, OptionArguments(k, e.headless), Provisioner(k, p)))
  }

  /** Chrome on Apple Silicon is the only session started without a driver manager. */
  lemma OnlyArmChromeSkipsProvisioning(e: Effective, p: Platform)
    requires PlanLaunch(e, p).Success?
    ensures PlanLaunch(e, p).value.provisioner.None? <==> e.browser == "chrome" && IsArm64Mac(p)
  {
  }

  // ---------------------------------------------------------------------
  // The WebDriver session

  /** The calls the suite makes on a WebDriver session, in order. */
  datatype SessionCall =
    | WindowSizeSet(width: int, height: int)
    | ScriptTimeoutSet(seconds: int)
    | SessionQuit

  /** The script timeout the `driver` fixture applies. */
  const ScriptTimeoutSeconds := 10

  /** A live WebDriver session, seen through the calls the suite makes on it. */
  class Driver {
    /** How the session was constructed. */
    const launch: Launch
    /** The current window size. */
    var windowSize: WindowSize
    /** The script timeout, once one has been set. */
    var scriptTimeout: Option<int>
    /** Whether `quit` has ended the session. */
    var closed: bool
    /** Every call made on the session so far. */
    var calls: seq<SessionCall>

    /** A session just created by the browser, with the browser's own window size. */
    constructor Start(launch: Launch, initialSize: WindowSize)
      ensures this.launch == launch && windowSize == initialSize
      ensures scriptTimeout.None? && !closed && calls == []
    {
      this.launch := launch;
      windowSize := initialSize;
      scriptTimeout := None;
      closed := false;
      calls := [];
    }

    /** `set_window_size(width, height)`. */
    method SetWindowSize(width: int, height: int)
      modifies this
      ensures windowSize == WindowSize(width, height)
      ensures calls == old(calls) + [WindowSizeSet(width, height)]
      ensures scriptTimeout == old(scriptTimeout) && closed == old(closed)
    {
      windowSize := WindowSize(width, height);
      calls := calls + [WindowSizeSet(width, height)];
    }

    /** `get_window_size()`. */
    method GetWindowSize() returns (size: WindowSize)
      ensures size == windowSize
    {
      size := windowSize;
    }

    /** `set_script_timeout(seconds)`. */
    method SetScriptTimeout(seconds: int)
      modifies this
      ensures scriptTimeout == Some(seconds)
      ensures calls == old(calls) + [ScriptTimeoutSet(seconds)]
      ensures windowSize == old(windowSize) && closed == old(closed)
    {
      scriptTimeout := Some(seconds);
      calls := calls + [ScriptTimeoutSet(seconds)];
    }

    /** `quit()`. */
    method Quit()
      modifies this
      ensures closed
      ensures calls == old(calls) + [SessionQuit]
      ensures windowSize == old(windowSize) && scriptTimeout == old(scriptTimeout)
    {
      closed := true;
      calls := calls + [SessionQuit];
    }
  }

  /**
   * The setup half of the `driver` fixture, up to `yield`: resolve the
   * configuration, dispatch on the browser, then set the window size and the
   * script timeout. An unsupported browser raises before any session exists.
   */
  method StartDriver(cliBrowser: string, cliHeadless: Option<bool>, settings: Settings,
                     platform: Platform, initialSize: WindowSize)
    returns (r: Result<Driver, SessionError>)
    ensures var e := Resolve(cliBrowser, cliHeadless, settings);
            var plan := PlanLaunch(e, platform);
            && (r.Failure? <==> plan.Failure?)
            && (r.Failure? ==> r.error == plan.error)
            && (r.Success? ==>
                  && fresh(r.value)
                  && r.value.launch == plan.value
                  && r.value.windowSize == e.windowSize
                  && r.value.scriptTimeout == Some(ScriptTimeoutSeconds)
                  && !r.value.closed
                  && r.value.calls == [WindowSizeSet(e.windowSize.width, e.windowSize.height),
                                       ScriptTimeoutSet(ScriptTimeoutSeconds)])
  {
    var e := Resolve(cliBrowser, cliHeadless, settings);
    var plan := PlanLaunch(e, platform);
    if plan.Failure? {
      return Failure(plan.error);
    }
    var driver := new Driver.Start(plan.value, initialSize);
    driver.SetWindowSize(e.windowSize.width, e.windowSize.height);
    driver.SetScriptTimeout(ScriptTimeoutSeconds);
    r := Success(driver);
  }

  /** The teardown half of the `driver` fixture, after `yield`. */
  method StopDriver(driver: Driver)
    modifies driver
    ensures driver.closed
    ensures driver.windowSize == old(driver.windowSize) && driver.scriptTimeout == old(driver.scriptTimeout)
    ensures driver.calls == old(driver.calls) + [SessionQuit]
  {
    driver.Quit();
  }

  // ---------------------------------------------------------------------
  // View fixtures

  const DesktopSize := WindowSize(1920, 1080)
  const TabletSize := WindowSize(768, 1024)
  const MobileSize := WindowSize(375, 812)

  /** `desktop_view`. */
  method DesktopView(driver: Driver)
    modifies driver
    ensures driver.windowSize == WindowSize(1920, 1080)
    ensures driver.calls == old(driver.calls) + [WindowSizeSet(1920, 1080)]
    ensures driver.scriptTimeout == old(driver.scriptTimeout) && driver.closed == old(driver.closed)
  {
    driver.SetWindowSize(DesktopSize.width, DesktopSize.height);
  }

  /** `tablet_view`. */
  method TabletView(driver: Driver)
    modifies driver
    ensures driver.windowSize == WindowSize(768, 1024)
    ensures driver.calls == old(driver.calls) + [WindowSizeSet(768, 1024)]
    ensures driver.scriptTimeout == old(driver.scriptTimeout) && driver.closed == old(driver.closed)
  {
    driver.SetWindowSize(TabletSize.width, TabletSize.height);
  }

  /** `mobile_view`. */
  method MobileView(driver: Driver)
    modifies driver
    ensures driver.windowSize == WindowSize(375, 812)
    ensures driver.calls == old(driver.calls) + [WindowSizeSet(375, 812)]
    ensures driver.scriptTimeout == old(driver.scriptTimeout) && driver.closed == old(driver.closed)
  {
    driver.SetWindowSize(MobileSize.width, MobileSize.height);
  }

  // ---------------------------------------------------------------------
  // The HTML report

  /**
   * The reports directory of `pytest_configure`: a setting starting with `./`
   * is taken relative to the project root, any other setting as it is.
   */
  function ReportsDirectory(projectRoot: Path, setting: string): (r: Path) {
    if |setting| >= 2 && setting[..2] == "./" then Join(projectRoot, Parse(setting[2..]))
    else Parse(setting)
  }

  /** The report file `report_<timestamp>.html` inside the reports directory. */
  function ReportFile(reportsDir: Path, timestamp: string): (r: Path) {
    Join(reportsDir, Parse("report_" + timestamp + ".html"))
  }

  /**
   * A `./` setting names the same components as without the prefix, placed
   * under the project root instead of the working directory.
   */
  lemma DotSlashRebasedOntoRoot(projectRoot: Path, rest: string)
    requires rest == [] || rest[0] != '/'
    ensures ReportsDirectory(projectRoot, "./" + rest)
            == Path(projectRoot.absolute, projectRoot.parts + Parse("./" + rest).parts)
  {
    assert ("./" + rest)[..2] == "./" && ("./" + rest)[2..] == rest;
    ParseDotSlash(rest);
  }

  /** A nested setting `./a/b` names the directory `b` inside `a` under the project root. */
  lemma NestedSettingRebased(projectRoot: Path, a: string, b: string)
    requires '/' !in a && a != "" && a != "."
    requires '/' !in b && b != "" && b != "."
    ensures ReportsDirectory(projectRoot, "./" + a + "/" + b) == Path(projectRoot.absolute, projectRoot.parts + [a, b])
  {
    var rest := a + "/" + b;
    assert "./" + a + "/" + b == "./" + rest;
    DotSlashRebasedOntoRoot(projectRoot, rest);
    ParseDotSlash(rest);
    ParseSlash(a, b);
    ParseName(a);
    ParseName(b);
  }

  /** Any setting not starting with `./` is used unchanged, whatever the project root. */
  lemma OtherSettingsUnchanged(projectRoot: Path, setting: string)
    requires !(|setting| >= 2 && setting[..2] == "./")
    ensures ReportsDirectory(projectRoot, setting) == Parse(setting)
  {
  }

  /**
   * A `./` setting whose remainder is itself absolute (`.//tmp`) is not
   * rebased: `pathlib` lets the absolute right operand win.
   */
  lemma DotSlashAbsoluteNotRebased(projectRoot: Path, rest: string)
    requires rest != [] && rest[0] == '/'
    ensures ReportsDirectory(projectRoot, "./" + rest) == Parse(rest)
    ensures ReportsDirectory(projectRoot, "./" + rest).absolute
  {
    assert ("./" + rest)[..2] == "./" && ("./" + rest)[2..] == rest;
  }

  /** The report file is a direct child of the reports directory. */
  lemma ReportFileInDirectory(reportsDir: Path, timestamp: string)
    requires '/' !in timestamp
    ensures ReportFile(reportsDir, timestamp) == Child(reportsDir, "report_" + timestamp + ".html")
  {
    var name := "report_" + timestamp + ".html";
    assert '/' !in name by {
      forall i | 0 <= i < |name| ensures name[i] != '/' {
        if 7 <= i < 7 + |timestamp| { assert name[i] == timestamp[i - 7]; }
      }
    }
    assert name[0] == 'r';
    ParseName(name);
  }

  /** The pytest option `pytest_configure` writes. */
  class PytestOptions {
    /** `config.option.htmlpath`. */
    var htmlPath: Option<Path>

    constructor ()
      ensures htmlPath.None?
    {
      htmlPath := None;
    }
  }

  /**
   * `pytest_configure`: load the configuration, work out the reports
   * directory and point the HTML report at a time-stamped file inside it.
   */
  method Configure(options: PytestOptions, projectRoot: Path, read: ConfigRead, timestamp: string)
    returns (r: Outcome<ConfigError>)
    modifies options
    ensures LoadConfig(read).Failure? ==> r == Fail(LoadConfig(read).error) && options.htmlPath == old(options.htmlPath)
    ensures LoadConfig(read).Success? ==>
              && r == Pass
              && options.htmlPath == Some(ReportFile(ReportsDirectory(projectRoot,
                   LoadConfig(read).value.reportsPath.GetOr(DefaultReportsPath)), timestamp))
  {
    var cfg := LoadConfig(read);
    if cfg.Failure? {
      return Fail(cfg.error);
    }
    var reportsDir := ReportsDirectory(projectRoot, cfg.value.reportsPath.GetOr(DefaultReportsPath));
    options.htmlPath := Some(ReportFile(reportsDir, timestamp));
    r := Pass;
  }

  /** The default setting `./reports` names `<project root>/reports`. */
  lemma DefaultReportsDirectory(projectRoot: Path)
    ensures ReportsDirectory(projectRoot, DefaultReportsPath) == Path(projectRoot.absolute, projectRoot.parts + ["reports"])
  {
    assert DefaultReportsPath[..2] == "./" && DefaultReportsPath[2..] == "reports";
    ParseName("reports");
  }

  /** Without a configuration file the report lands in `<project root>/reports/report_<timestamp>.html`. */
  lemma DefaultReportLocation(projectRoot: Path, timestamp: string)
    requires '/' !in timestamp
    ensures LoadConfig(FileNotFound).Success?
    ensures ReportFile(ReportsDirectory(projectRoot, LoadConfig(FileNotFound).value.reportsPath.GetOr(DefaultReportsPath)), timestamp)
            == Path(projectRoot.absolute, projectRoot.parts + ["reports", "report_" + timestamp + ".html"])
  {
    var setting := LoadConfig(FileNotFound).value.reportsPath.GetOr(DefaultReportsPath);
    assert setting == DefaultReportsPath;
    var dir := Path(projectRoot.absolute, projectRoot.parts + ["reports"]);
    DefaultReportsDirectory(projectRoot);
    assert ReportsDirectory(projectRoot, setting) == dir;
    var name := "report_" + timestamp + ".html";
    ReportFileInDirectory(dir, timestamp);
    assert ReportFile(dir, timestamp) == Child(dir, name);
    assert Child(dir, name).parts == projectRoot.parts + ["reports", name];
  }
}
