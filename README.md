# Session configuration and page-object core of a Selenium test suite

This project models the parts of a browser-driven pytest suite that have
sequential, self-contained behaviour, and proves properties of them in Dafny:

- **Session configuration and browser dispatch** (`conftest.py`):
  `load_config` with its fall-back defaults, resolution of browser, headless
  mode and window size from the command line and config/config.json, the
  choice of headless argument and of driver provisioning per browser
  (including the Apple-Silicon Chrome branch), the `TypeError` for an unknown
  browser, the session preparation (window size, then script timeout 10) and
  teardown, the three view fixtures, and the report path of `pytest_configure`.
- **The checkboxes page** (`page_objects/checkbox_page.py`) as a class over an
  `array<bool>` of checkbox states, with 1-based lookup, toggle, select,
  deselect and read-back, plus a log of clicks so that "no click is issued"
  can be stated.
- **The drag-and-drop page** (`page_objects/drag_and_drop_page.py`): the
  case-insensitive column lookup and the drag-and-drop as an exchange of the
  two column texts, with the three drag-and-drop scenarios of
  `test_cases/test_drag_and_drop.py` as client methods.
- **Test-asset discovery** (`test_cases/test_file_upload.py`): the walk-up
  loop looking for the `Assessment` directory with its fall-back, the asset
  path table, and `_verify_test_files_exist` in its strict and lenient forms.

Modules: `Wrappers` (Option / Result / Outcome), `Paths` (POSIX paths as
`pathlib` and `os.path` see them), `Conftest`, `Checkboxes`, `DragAndDrop`,
`FileUpload`.

Modelling decisions:

- Paths are `Path(absolute, parts)`. `Paths.Parse` is `PurePosixPath(s)`:
  empty and `.` components are dropped. `Paths.Join` is pathlib's `/`, where an
  absolute right operand wins. `Dirname`, `Basename` and `Child` are
  `os.path.dirname`, `os.path.basename` and `os.path.join` on normalised paths.
- The clock, filesystem existence and the platform are inputs. The timestamp
  is a string, `os.path.exists` is membership in a given `set<Path>`, and
  `platform.system()` / `platform.machine()` are a `Platform` value.
- A Selenium session is a `Conftest.Driver` object. It records how it was
  launched (browser, option arguments, driver manager or none), its window
  size, its script timeout, whether it was closed, and the log of calls made
  on it.
- The DOM state a page object reads is held in the page object's own fields:
  the checkbox states, and the two column texts.
- `load_config` catches only `FileNotFoundError`; any other failure,
  including malformed JSON, propagates (conftest.py:27-31).
- Only a reports setting starting with `./` is rebased onto the project root.
  Any other relative setting stays relative to the working directory. A
  setting such as `.//tmp`, whose remainder is absolute, is not rebased
  either: pathlib's `/` lets the absolute right operand win.
  `Conftest.ReportsDirectory` covers these three cases, one lemma each, and
  `Conftest.ReportFile` is the time-stamped file inside the directory.

## Model

| member | source | states |
|---|---|---|
| `Conftest.LoadConfig` | conftest.py:22-38 | a parsed file is returned as is; a missing file gives chrome / False / 1920x1080 / `./reports`; every other read error propagates |
| `Conftest.HeadlessOption` | conftest.py:148-153 | the `--headless` option is `True` when the flag is given and `None` otherwise, never `False` |
| `Conftest.Resolve` | conftest.py:52-62 | browser: CLI value unless `default`, then the file's key, then chrome; headless: CLI value unless `None`, then the file's key, then False; window size: the file's, else 1920x1080 |
| `Conftest.HeadlessFlagOrConfig` | conftest.py:57-59 | with the real option, headless mode is the flag OR the file's setting, so the flag can switch headless on but never off |
| `Conftest.FieldsResolveIndependently` | conftest.py:52-62 | each resolved field depends only on its own file key, and not on the file at all when its CLI value is given |
| `Conftest.DefaultsAgreeWithAbsentKeys` | conftest.py:27-38 | the substituted defaults resolve exactly as a file with no keys would, for every CLI input |
| `Conftest.MissingFileDefaults` | conftest.py:31-38 | with no file and no options the session is chrome, not headless, 1920x1080 |
| `Conftest.SupportedBrowser` | conftest.py:67-104 | a name selects a browser exactly when it is that browser's name, and no other name selects one |
| `Conftest.SupportedBrowserRoundTrip` | conftest.py:67-85 | each of edge, firefox and chrome is selected by its own name |
| `Conftest.HeadlessArgumentChoice` | conftest.py:67-88 | exactly one argument in headless mode: `--headless=new` exactly for chrome, `--headless` exactly for edge and firefox |
| `Conftest.Provisioner` | conftest.py:71-101 | no driver manager exactly for chrome on Darwin/arm64; otherwise the manager for the chosen browser |
| `Conftest.PlanLaunch` | conftest.py:66-104 | an unsupported browser name raises `TypeError("Automation does not support browser <name>")`; otherwise the launched browser has that name, the headless arguments and the provisioning above |
| `Conftest.OnlyArmChromeSkipsProvisioning` | conftest.py:90-101 | a launch skips provisioning exactly when the browser is chrome and the host is macOS on arm64 |
| `Conftest.Driver.Start` | conftest.py:71-101 | a new session records how it was launched, with no calls yet and no script timeout |
| `Conftest.Driver.SetWindowSize` | conftest.py:107 | sets the window size, logs the call, changes nothing else |
| `Conftest.Driver.GetWindowSize` | test_cases/test_drag_and_drop.py:66 | returns the current window size |
| `Conftest.Driver.SetScriptTimeout` | conftest.py:110 | sets the script timeout, logs the call, keeps the window size |
| `Conftest.Driver.Quit` | conftest.py:117 | closes the session and logs the call |
| `Conftest.StartDriver` | conftest.py:49-114 | an unsupported browser fails with the launch error and creates no session; otherwise a fresh open session with the resolved launch, whose only calls are set-window-size to the resolved size and then set-script-timeout 10 |
| `Conftest.StopDriver` | conftest.py:116-117 | teardown closes the session with one `quit`, keeping its window size and script timeout |
| `Conftest.DesktopView` | conftest.py:119-124 | sets the window to 1920x1080 with one call; the script timeout and the open session stay as the `driver` fixture left them |
| `Conftest.TabletView` | conftest.py:126-131 | sets the window to 768x1024 with one call; the script timeout and the open session stay as the `driver` fixture left them |
| `Conftest.MobileView` | conftest.py:133-138 | sets the window to 375x812 with one call; the script timeout and the open session stay as the `driver` fixture left them |
| `Conftest.DotSlashRebasedOntoRoot` | conftest.py:161-164 | a `./` setting with a relative remainder names the same components, placed under the project root instead of the working directory |
| `Conftest.DotSlashAbsoluteNotRebased` | conftest.py:162-164 | a `./` setting whose remainder starts with `/` (`.//tmp`) is that absolute path, not rebased onto the project root |
| `Conftest.NestedSettingRebased` | conftest.py:162-164 | a setting `./a/b` of two names is `<project root>/a/b` |
| `Conftest.OtherSettingsUnchanged` | conftest.py:165-166 | any setting not starting with `./` is used as it is, whatever the project root |
| `Conftest.ReportFileInDirectory` | conftest.py:172 | the report file is the child `report_<timestamp>.html` of the reports directory |
| `Conftest.DefaultReportsDirectory` | conftest.py:161-164 | the default `./reports` is `<project root>/reports` |
| `Conftest.Configure` | conftest.py:155-173 | a propagated config error leaves the HTML path untouched; otherwise the HTML path is the report file inside the resolved reports directory |
| `Conftest.DefaultReportLocation` | conftest.py:158-173 | without a config file the report is `<project root>/reports/report_<timestamp>.html` |
| `Paths.Parse` | conftest.py:164-166 | `Path(s)` is absolute exactly when `s` starts with `/`, and each component is a name that is neither empty nor `.` and has no `/` |
| `Paths.Dirname` | test_cases/test_file_upload.py:20-21 | the parent is a prefix one component shorter, except that a path without components is its own parent |
| `Paths.DirnameFixedPoint` | test_cases/test_file_upload.py:20 | `dirname(p) == p` exactly when p is a root (no components) |
| `Paths.ChildInverse` | test_cases/test_file_upload.py:31-38 | `os.path.join(d, name)` undoes to `d` under dirname and to `name` under basename |
| `Paths.ParentChild` | test_cases/test_file_upload.py:20-24 | a path with components is `os.path.join` of its dirname and its basename |
| `Paths.ParseName` | conftest.py:172 | a string without `/` (and not empty or `.`) is a one-component relative path |
| `Paths.ParseSlash` | conftest.py:164-166 | `Path("a/b")` names the components of `a` followed by those of `b`, and is absolute exactly when `a` is; with `ParseName` this determines the components of any `/`-separated string of names |
| `Paths.ParseDotSlash` | conftest.py:164 | a leading `./` does not change the components a path string names |
| `Checkboxes.CheckboxIndex` | page_objects/checkbox_page.py:29-43 | `get_checkbox`: checkbox number n is found exactly when 1 <= n <= count, at position n-1; otherwise `ValueError` carrying n and the count |
| `Checkboxes.Toggled` | page_objects/checkbox_page.py:50-54 | a click flips the clicked checkbox and no other |
| `Checkboxes.ToggleTwiceRestores` | test_cases/test_checkboxes.py:38-44 | toggling the same checkbox twice restores every state |
| `Checkboxes.WithState` | page_objects/checkbox_page.py:56-66 | forcing a state sets that checkbox and no other |
| `Checkboxes.WithStateIdempotent` | page_objects/checkbox_page.py:56-66 | selecting (deselecting) twice is selecting (deselecting) once, and forcing the state a checkbox already has changes nothing |
| `Checkboxes.ToggleReachesState` | page_objects/checkbox_page.py:56-66 | a click on a checkbox in the other state is the same as forcing the state |
| `Checkboxes.CheckboxesPage.IsCheckboxSelected` | page_objects/checkbox_page.py:45-48 | the state of checkbox n-1 when 1 <= n <= count, else the out-of-range error |
| `Checkboxes.CheckboxesPage.GetAllCheckboxesState` | page_objects/checkbox_page.py:68-75 | one state per checkbox, the i-th equal to what `is_checkbox_selected(i+1)` reports |
| `Checkboxes.CheckboxesPage.ToggleCheckbox` | page_objects/checkbox_page.py:50-54 | in range: flips checkbox n-1 with one click; out of range (0 and negatives included): error, no click, no change |
| `Checkboxes.CheckboxesPage.SelectCheckbox` | page_objects/checkbox_page.py:56-60 | in range: checkbox n-1 becomes selected, others unchanged, one click only if it was unselected; out of range: error, no click, no change |
| `Checkboxes.CheckboxesPage.DeselectCheckbox` | page_objects/checkbox_page.py:62-66 | in range: checkbox n-1 becomes unselected, others unchanged, one click only if it was selected; out of range: error, no click, no change |
| `DragAndDrop.Lower` | page_objects/drag_and_drop_page.py:96-98 | lower-casing keeps the length and lower-cases each character |
| `DragAndDrop.LowerIdempotent` | page_objects/drag_and_drop_page.py:96-98 | lower-casing twice is lower-casing once |
| `DragAndDrop.LowerIsLetter` | page_objects/drag_and_drop_page.py:96-97 | a string lower-cases to a one-letter name exactly when it is that letter in either case |
| `DragAndDrop.ColumnFor` | page_objects/drag_and_drop_page.py:95-97 | column A exactly for `a`/`A`, column B exactly for `b`/`B`, otherwise `ValueError("Column must be 'a' or 'b'")` |
| `DragAndDrop.ColumnForIgnoresCase` | page_objects/drag_and_drop_page.py:95-98 | the selected column depends only on the lower-cased argument |
| `DragAndDrop.DragAndDropPage.GetColumnText` | page_objects/drag_and_drop_page.py:94-98 | the text of column A for `a`/`A`, of column B for `b`/`B`, an error exactly for every other argument |
| `DragAndDrop.DragAndDropPage.DragAndDropJs` | page_objects/drag_and_drop_page.py:39-92 | the two column texts are exchanged |
| `DragAndDrop.DragAndDropOnce` | test_cases/test_drag_and_drop.py:23-27 | from the served page, one drag-and-drop leaves column a reading B and column b reading A |
| `DragAndDrop.DragAndDropTwice` | test_cases/test_drag_and_drop.py:42-48 | two drag-and-drops restore A and B |
| `DragAndDrop.DragAndDropWithResize` | test_cases/test_drag_and_drop.py:64-77 | with the column texts taken to be independent of the window size, the exchange holds after resizing to 800x600; restoring the size read before gives the window its original size, and the script timeout and the open session are kept |
| `FileUpload.NearestNamedCorrect` | test_cases/test_file_upload.py:20-21 | the search finds the longest prefix of the directory ending in `Assessment`, and finds none exactly when no component is `Assessment` |
| `FileUpload.FindProjectDir` | test_cases/test_file_upload.py:16-26 | the walk-up ends at `ProjectDir`: the nearest enclosing `Assessment` directory, or else two levels above the test file |
| `FileUpload.WalkUpStops` | test_cases/test_file_upload.py:20-24 | where the loop stops, an `Assessment` directory was found exactly when the basename is `Assessment`, so a root triggers the fall-back |
| `FileUpload.AssetEntries` | test_cases/test_file_upload.py:31-38 | keys text_file, image_file, pdf_file in that order; test_file.txt and document.pdf under `<base>/test_assets`, report.png under `<base>`; so each expected upload filename is the basename of its path |
| `FileUpload.AssetEntriesDistinct` | test_cases/test_file_upload.py:34-38 | the three keys are distinct |
| `FileUpload.FirstMissingIsMissing` | test_cases/test_file_upload.py:58-65 | the first missing entry is missing and every entry before it exists; there is none exactly when every file exists |
| `FileUpload.FirstMissingOfPrefix` | test_cases/test_file_upload.py:58-65 | a missing entry found in a prefix is the first missing entry of the whole table |
| `FileUpload.MissingKeysMembers` | test_cases/test_file_upload.py:57-63 | with distinct keys, an entry's key is in `missing_files` exactly when its file does not exist |
| `FileUpload.RemoveKeyWithoutKeys` | test_cases/test_file_upload.py:69-71 | popping one more key removes the entries with that key too |
| `FileUpload.WithoutKeysKeeps` | test_cases/test_file_upload.py:67-71 | dropping the entries keyed as missing keeps exactly the entries that exist |
| `FileUpload.KeepExistingMembers` | test_cases/test_file_upload.py:57-71 | an entry survives exactly when it was in the table and its file exists, unchanged |
| `FileUpload.RemovedKeysAreMissing` | test_cases/test_file_upload.py:57-71 | a key disappears exactly when it is one of the missing keys |
| `FileUpload.KeptKeyIsPresent` | test_cases/test_file_upload.py:57-71 | a key still in the table after filtering belonged to an entry whose file exists |
| `FileUpload.PresentKeyIsKept` | test_cases/test_file_upload.py:57-71 | the key of an entry whose file exists is still in the table after filtering |
| `FileUpload.DroppingMissingKeepsExisting` | test_cases/test_file_upload.py:67-71 | popping every key of `missing_files` leaves exactly the entries whose file exists, with distinct keys |
| `FileUpload.KeepExistingDistinct` | test_cases/test_file_upload.py:67-71 | the filtered table still has distinct keys |
| `FileUpload.RemoveKeyMembers` | test_cases/test_file_upload.py:71 | `pop(key, None)` keeps exactly the entries with another key |
| `FileUpload.RemoveKeyDistinct` | test_cases/test_file_upload.py:71 | popping a key keeps the dictionary's keys distinct |
| `FileUpload.AssetPaths.Pop` | test_cases/test_file_upload.py:71 | `pop(key, None)` removes the entry with that key, if there is one, and keeps the keys distinct |
| `FileUpload.ScanForMissing` | test_cases/test_file_upload.py:57-65 | lenient: collects the keys of the missing files in dictionary order; strict: stops at the first missing entry, collecting nothing |
| `FileUpload.PopAll` | test_cases/test_file_upload.py:68-71 | popping each listed key in turn removes every entry keyed by one of them, and the keys stay distinct throughout |
| `FileUpload.VerifyTestFilesExist` | test_cases/test_file_upload.py:50-71 | strict: the result names the first missing entry in dictionary order, or none, and the table is unchanged; lenient: exactly the missing entries are removed |
| `FileUpload.AssetsPathsFixture` | test_cases/test_file_upload.py:12-48 | the fixture's table is the asset table of the project directory without the entries whose file is missing |

## Left out

- Real Selenium and webdriver_manager calls (conftest.py:71-101): constructing the browser, `install()` downloads and `quit()` are abstract. A `Launch` value records which browser, which option arguments and which driver manager would be used. Download or launch failures are not modelled.
- Teardown on every exit path is pytest's guarantee for a yield fixture. The model splits the fixture into `StartDriver` and `StopDriver` and does not model exceptions inside a test body.
- `get_timestamp` (conftest.py:40-42) reads the clock, so the timestamp is an input string. `mkdir` (conftest.py:169), `os.path.exists` and every `print` are left out; file existence is a given set of paths.
- Conftest.PytestOptions: the HTML path is kept as a `Path`, not as the string `str(report_file)`.
- Explicit waits, `time.sleep(1)` and the helpers of `page_objects/base_page.py`: timing-dependent, and base_page.py is not part of this model. Each wait is assumed to succeed, except on a checkboxes page with no checkboxes: there the waits at page_objects/checkbox_page.py:35 and :71 would time out, and the model's out-of-range error for every number (`CheckboxIndex(0, n)`) and its empty state list stand in for that time-out.
- The injected drag-and-drop JavaScript and `drag_and_drop_elements` (ActionChains): foreign code run in the browser. Only the resulting exchange of the column texts is modelled.
- `open`, `current_url` and the `*_loaded_successfully` header checks of the page objects: navigation glue with no logic of their own.
- page_objects/file_upload_page.py, page_objects/landing_page.py and test_cases/test_ab_page.py are not part of this model. They are wait-and-read wrappers and click-then-wait navigation.
- The upload, checkbox and A/B scenario bodies are not modelled. The expected upload filename is covered by `FileUpload.AssetEntries` (each basename).
- Checkbox state after a page refresh is the demo site's behaviour, not the suite's.
- The commented-out legacy fixture (conftest.py:177-232) is a dead string literal.
- Config values are typed: `browser` and `reports_path` are strings, `headless` is a bool, `window_size` has both keys. A `window_size` missing `width` or `height` (a `KeyError`), or a non-bool `headless` read by truthiness, is not modelled.
- Exception messages that embed numbers or paths are not built as strings. `CheckboxError` carries the number and the count, and `FileUpload.Missing` carries the key and the path. The column error text and the `TypeError` text are modelled exactly.
- DragAndDrop.Lower: lower-cases the ASCII letters only, where Python's `str.lower` covers all of Unicode. No other character lower-cases to `a` or `b`, so the accepted column names are the same.
- Paths: POSIX semantics only. There are no Windows drives or separators, no special case for a path starting with exactly two slashes, and no symlink resolution in `abspath`.
