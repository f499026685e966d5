# chattigo QA bot and test configuration — a Dafny model

This project models the logic of the chattigo QA automation repository: the
Discord bot that runs the Playwright suite and reports its results, the
remote-build variant of that bot, and the configuration layer that decides
which QA deployment, credentials and browser mode a test run uses.

## What is modelled

**The local bot (bot.py).** An operator types `/auto`. Environment buttons
(pantera, bugs, support-bugs, leones) then open profile buttons (agente,
supervisor, bot) that remember the chosen environment. A profile button runs
`ProfileView.run_test`, whose steps the model splits up:

- Remove `report.json` and run
  `python3 -m pytest tests/<profile> --env=<environment> --json-report ...`.
  The outcome of pytest is a parameter: completed with a return code and a
  result document, completed with output that does not decode, timed out, or
  failed to launch. Each run that started also reports the calls of the
  screenshot hook; the screenshots they saved are added to the working
  directory before the page is built.
- Read the summary counters, each defaulting to 0.
- Compute each test's full duration (call + setup + teardown) in an in-place
  loop over an array. The run's duration is their sum in document order.
- Group the tests by file and class in first-appearance order. A nested loop
  builds the groups and is proved equal to a specification function.
- Name the tests from the translation table and the files from the file table.
  A file with no table entry gets a derived one-word name.
- Build the report page: one section per file, one nested section per class,
  and numbered entries. An entry shows an error box, a log box and a screenshot
  only when those exist. Numbering starts again at 1 in each file.
- Store the page in a bucket under `<env>/<profile>/<timestamp>/report/index.html`
  and link it with every space percent-encoded. The storage import comes
  before the check that the page exists, so a failing import posts a warning
  even when no page was written.
- Post a summary embed. A run whose summary reported no tests counts as one
  test. The percentage is truncated and drives a fifteen-cell bar. The colour
  follows pytest's exit code.

The working directory (report.json, index.html, the screenshots) and the
bucket are the fields of a `Workspace` object that `RunTest` updates.

**The remote-build bot (bot/discord_bot.py).** It has label buttons for the
same environments and profiles and starts a build for the chosen pair (a
raising build request ends the run after the announcement). It
polls the build until the build reports done, editing a status message once
per "not yet". Then it reads `<ambiente>/<perfil>/summary.json` from the
bucket's objects (zeros when there is none) and posts an embed whose colour depends only on the failure count.

**Configuration.**
- `config/config.py`: the fixed environment-to-login-URL map and the
  attributes read from the process environment.
- `tests/conftest.py`: `configure_env`, which points `Config.BASE_URL` at the
  chosen environment, and the screenshot hook. The hook's file name is the one
  bot.py looks up again; both use one definition here.
- `tests/helpers/config_loader.py`: the nested environment → profile lookup
  in settings.yaml and its two named errors.
- The root `conftest.py`: the option defaults and the `settings` fixture,
  which exports ENVIRONMENT and PROFILE before the lookup. Also the Cloud Run
  detection and the headless choice.
- `tests/pages/base_page.py`: base-URL normalisation, `goto`, and `visible`.

**Behaviour worth knowing, as the code has it.**
- Both views of bot.py are created with `timeout=None`, and nothing disables
  a button after use. Pressing a button again starts another run. There is no
  guard against two runs at once.
- index.html is never deleted. Suppose the page of a run cannot be built
  because a failed test has no call section. Then the previous run's index.html
  is still uploaded and linked, and the embed shows the new counters.
- The counters of the embed come from the summary alone. The test list, the
  page and the upload never change them. When the summary reports no tests,
  the page shows zeros while the embed shows one test.

Python's string operations (`replace`, `split`, `rstrip`, `lower`,
`capitalize`, `str(int)`, `int(str)`) are defined once in module `Text`, with
CPython's scanning order.

## Model

| member | source | states |
|---|---|---|
| Text.Replace | bot.py:279 | every character of the result comes from the text or from the replacement; a one-character pattern that the replacement lacks is gone from the result |
| Text.ReplaceWithoutMatch | bot.py:238 | a text that lacks one of the pattern's characters is left unchanged |
| Text.ReplaceAtEnd | bot.py:238 | a pattern at the end of a text that lacks the pattern's first character is the only occurrence replaced |
| Text.Split | bot.py:187 | split never yields an empty list; with a one-character separator no part contains it; every character of a part comes from the text |
| Text.SplitWithoutSeparator | bot.py:237 | a text without the separator is a single part |
| Text.SplitAfterFirst | bot.py:187 | a leading segment free of the separator becomes the first part, and the rest splits independently |
| Text.JoinSplit | bot.py:187 | joining the parts of a split with the same separator gives back the original text |
| Text.RStrip | tests/pages/base_page.py:4 | the result is a prefix of the text, does not end in the stripped character, and only that character was removed |
| Text.Capitalize | bot.py:242 | the length is kept, the same non-letter characters occur, and the first character is not lower-case |
| Text.ShowNat | bot.py:431 | the decimal form of a number is non-empty and made of digits |
| Text.DigitsValueShow | config/config.py:18 | reading back the decimal digits of a number gives the number |
| Text.ParseShow | config/config.py:18 | `int(str(i)) == i` for every integer |
| Text.SpaceEscapeRoundTrip | bot.py:403 | for a text without '%', decoding "%20" undoes the percent-encoding of spaces |
| AppConfig.EnvironmentKeys | config/config.py:7-12 | the environment map has exactly the keys pantera, bugs, support-bugs and leones |
| AppConfig.PanteraUrl | config/config.py:8 | pantera's URL is `https://qa-pantera.chattigo.com/login/pages/login` |
| AppConfig.BugsUrl | config/config.py:9 | bugs' URL is its `qa-bugs` login page |
| AppConfig.SupportBugsUrl | config/config.py:10 | support-bugs' URL is its `qa-support-bugs` login page |
| AppConfig.LeonesUrl | config/config.py:11 | leones' URL is its `qa-leones` login page |
| AppConfig.EnvironmentUrls | config/config.py:7-12 | every environment maps to `https://qa-<key>.chattigo.com/login/pages/login` |
| AppConfig.ReadAttributes | config/config.py:15-19 | reading the attributes fails exactly when TIMEOUT is set but not an integer; HEADLESS is on exactly when the variable is set and lower-cases to "true" |
| AppConfig.DefaultAttributes | config/config.py:15-19 | with nothing set: BASE_URL is pantera's login page, the default credentials are used, TIMEOUT is 10000 and HEADLESS is off |
| AppConfig.EachVariableOrDefault | config/config.py:15-18 | each variable is read on its own: a set BASE_URL, USERNAME or PASSWORD is used as given and an unset one takes its default, whatever else is set; TIMEOUT is the integer its text denotes, or 10000 when unset |
| AppConfig.TimeoutRoundTrip | config/config.py:18 | a TIMEOUT written as a decimal integer is read back as that integer |
| AppConfig.HeadlessIgnoresCase | config/config.py:18-19 | whenever TIMEOUT is absent or an integer, "TRUE", "True" and "true" all switch HEADLESS on |
| AppConfig.Config.constructor | config/config.py:6-19 | the class object holds the attributes as read |
| ConfigLoader.AtStep | tests/helpers/config_loader.py:24-30 | following one more key succeeds exactly when the path so far reaches a mapping holding that key |
| ConfigLoader.LoadSettings | tests/helpers/config_loader.py:17-41 | for a document whose `environments` is a mapping: the error naming the environment is raised exactly when its entry is missing or empty, and the error naming the profile and the environment exactly when the environment entry is found, has a `profiles` mapping, and the profile entry is missing or empty; on success the names are the lower-cased keys and both entries are non-empty |
| ConfigLoader.LoadedFields | tests/helpers/config_loader.py:32-41 | loaded settings take base_url, browser, headless and default_timeout from the environment entry and username and password from the profile entry |
| ConfigLoader.BuildSettings | tests/helpers/config_loader.py:32-41 | settings exist exactly when the environment entry is a mapping holding base_url, browser, headless and default_timeout and the profile entry a mapping holding username and password; each field is then the value under its key and the names are the given ones; otherwise the error names one of those keys |
| RootConftest.OptionValue | conftest.py:6-8 | an option takes its command-line value, else its registered default |
| RootConftest.DefaultOptionsLoadPanteraAgente | conftest.py:6-20 | without `--env` and `--profile` the fixture loads the pantera environment and the agente profile, whatever ENVIRONMENT and PROFILE held before |
| RootConftest.ProcessEnvironment.SettingsFixture | conftest.py:11-20 | ENVIRONMENT and PROFILE are written with the option values (defaults "pantera" and "agente"), then settings are loaded from the environment as just written |
| RootConftest.FixtureSeesChoice | conftest.py:13-20 | whatever the environment held before, the loaded settings carry the command-line choice, lower-cased |
| RootConftest.IsCloudRun | conftest.py:26-31 | Cloud Run is detected exactly when /.dockerenv exists or K_SERVICE or K_REVISION is set, whatever its value, even empty |
| RootConftest.LaunchHeadless | conftest.py:42-47 | forced on under Cloud Run; otherwise the configured value, with null read as off |
| RootConftest.CloudRunAlwaysHeadless | conftest.py:26-47 | if K_SERVICE or K_REVISION is set, or /.dockerenv exists, the browser is launched headless |
| TestsConftest.ConfigureEnv | tests/conftest.py:10-17 | the `--env` value (default "pantera") sets BASE_URL to its login page when it is a known environment; an unknown one leaves BASE_URL unchanged |
| TestsConftest.DefaultEnvIsConfigured | tests/conftest.py:8-15 | without `--env`, BASE_URL becomes pantera's login page |
| TestsConftest.SafeName | tests/conftest.py:46 | the safe form of a node id contains no "/" |
| TestsConftest.ScreenshotPath | tests/conftest.py:47 | a screenshot path starts with "screenshots/", ends with ".png", and names a file directly inside that folder |
| TestsConftest.MakeReport | tests/conftest.py:37-52 | a screenshot is attempted exactly in the call phase of a test that has a page, at the path derived from its node id; a capture failure is logged, not raised |
| TestsConftest.ShotsWritten | tests/conftest.py:37-52 | the files a session leaves under screenshots/ are exactly the paths of the hook calls that saved a screenshot |
| TestsConftest.CapturedTestHasScreenshot | tests/conftest.py:42-50 | a test that used `page` and whose capture succeeded in the call phase has its screenshot on disk |
| BasePages.BasePage.constructor | tests/pages/base_page.py:2-4 | the stored base URL is the context's base URL with trailing "/" removed, or "" when there is none |
| BasePages.BasePage.GotoTarget | tests/pages/base_page.py:7-11 | a path starting with "http" is visited as given; any other path is appended to the base URL |
| BasePages.BasePage.Visible | tests/pages/base_page.py:28-32 | true exactly when the probe answered true; an exception gives false |
| BasePages.JoinHasSingleSlash | tests/pages/base_page.py:4-11 | only trailing slashes are cut, so a base URL joined with "/path" has exactly one separating slash |
| BotWizard.EnvironmentButton | bot.py:462-477 | each environment button id selects the environment with that id |
| BotWizard.ProfileButton | bot.py:41-51 | each profile button id selects the profile with that id |
| BotWizard.EnvironmentButtonRoundTrip | bot.py:462-477 | every environment's button selects that environment |
| BotWizard.ProfileButtonRoundTrip | bot.py:41-51 | every profile's button selects that profile |
| BotWizard.Press | bot.py:458-497 | on the environment view exactly the four environment buttons react, showing a profile view for that environment; on a profile view exactly the three profile buttons react, starting a run for the view's environment |
| BotWizard.WizardStartsChosenRun | bot.py:35-51 | choosing environment E and then profile P starts the run for exactly (E, P) |
| BotWizard.Command | bot.py:69 | the shell splits the command into python3, -m, pytest, the profile's test folder, the `--env` option and the two JSON-report flags naming report.json, the file the run reads back |
| BotWizard.CommandDeterminesChoice | bot.py:69 | two choices with the same pytest command are the same choice |
| BotWizard.EnvironmentIsConfigured | bot.py:462-477 | every environment the bot offers is a key of the configuration map, so `--env` always selects its login page |
| BotResults.ReadCounters | bot.py:103-109 | all counters stay 0 without report.json or without a summary; otherwise each key is read with a default of 0 |
| BotResults.TotalDurationAppend | bot.py:113-119 | the run's duration splits over any cut of the test list, so it is the sum in document order |
| BotResults.TotalDurationOfReports | bot.py:113-119 | the run's duration depends only on the test reports, not on the annotations |
| BotResults.TotalDurationNonNegative | bot.py:113-117 | with non-negative phase durations, the run's duration is non-negative |
| BotResults.AnnotateDurations | bot.py:113-119 | the loop returns the sum of full durations and stores each test's call + setup + teardown as its `full_duration`, with nothing else changed |
| BotGrouping.NodeIdWithClass | bot.py:186-190 | `file::Class::test` gives that file, class and test name |
| BotGrouping.NodeIdWithoutClass | bot.py:186-190 | `file::test` gives that file, the class "Sin Clase" and that test name |
| BotGrouping.FindFile | bot.py:192-193 | returns the position of the file key, or the count of groups when it is absent |
| BotGrouping.FindClass | bot.py:194-195 | returns the position of the class key, or the count of classes when it is absent |
| BotGrouping.FilesDistinct | bot.py:192-193 | no file is listed twice |
| BotGrouping.ClassesDistinct | bot.py:194-195 | no class is listed twice under one file |
| BotGrouping.GroupingStep | bot.py:185-220 | one more test changes the grouping exactly as the loop body does: it finds or appends the file, finds or appends the class, and appends the named test |
| BotGrouping.BucketSound | bot.py:192-220 | a bucket holds only tests of its own file and class, each with its short name set |
| BotGrouping.BucketFromRows | bot.py:185-220 | every entry of a bucket is one of the input tests |
| BotGrouping.RowFiled | bot.py:185-220 | every test is filed: its file is listed, its class is listed under that file, and it sits in that bucket |
| BotGrouping.PrefixOrder | bot.py:184-220 | grouping a prefix of the tests gives prefixes of the file list, of each class list and of each bucket, which means first-appearance and document order |
| BotGrouping.GroupTests | bot.py:184-220 | the nested loop builds exactly the specified grouping |
| BotNaming.ShortName | bot.py:199-219 | the translation when the table has one, else the test's own name |
| BotNaming.DerivedFileName | bot.py:234-242 | the derived file name is one word: no "/" or "_", and it does not start lower-case |
| BotNaming.DerivedFileNameIsFirstWord | bot.py:234-242 | for any file `<d1>/<d2>/test_<w>_<rest>.py` whose name holds no further "test_" and ends in its only ".py", the title is the first word `w` capitalised |
| BotNaming.DisplayName | bot.py:226-242 | the table entry for a listed file, otherwise the derived name |
| BotNaming.LoginFileName | bot.py:236-242 | `tests/agente/test_login_agente.py` is shown as "Login" |
| BotRender.ItemOf | bot.py:260-313 | an entry has its number and outcome; the error box appears only for failed tests, holds "Error desconocido" when there is no `longrepr` and is hidden when that is empty; the log box appears exactly for a non-empty call log; the screenshot appears exactly when its file exists |
| BotRender.NumberingConsecutive | bot.py:222-314 | within a file the entries are numbered 1, 2, ..., n across all its classes, one number per test |
| BotRender.PageFailsIffFailedWithoutCall | bot.py:273-275 | building the page fails exactly when some failed test of the document has no call section |
| BotRender.SavedScreenshotIsShown | bot.py:278-281 | the screenshot the test hook saved is the one the report entry shows, as long as the file exists |
| BotRender.RenderTests | bot.py:260-314 | the loop numbers the tests from the current counter, or stops at a failed test without a call section |
| BotRender.RenderFile | bot.py:222-321 | the loop over a file's classes, with the counter starting at 1, builds exactly the specified file section |
| BotRender.RenderReport | bot.py:222-322 | the loop over the files builds exactly the specified page body, or the error |
| BotSummary.StorageKey | bot.py:395 | an upload is stored as report/index.html inside the `<env>/<profile>/<timestamp>/` folder |
| BotSummary.StorageKeyNamesTimestamp | bot.py:394-395 | the upload time reads back from the key, so uploads at different times never overwrite each other |
| BotSummary.PublicUrl | bot.py:403 | the link has no space and starts with the bucket's public address |
| BotSummary.PublicUrlNamesKey | bot.py:393-403 | decoding the link's path gives back the storage key `<env>/<profile>/<timestamp>/report/index.html` |
| BotSummary.Fallback | bot.py:412-419 | after the fallback the total is never 0; a run with no reported tests counts as one passed test on exit code 0 and one failed test otherwise; other counters are untouched |
| BotSummary.Percentage | bot.py:421 | 0 when the total is not positive, else the quotient 100·passed/total truncated toward zero |
| BotSummary.PercentageBounds | bot.py:421 | for 0 ≤ passed ≤ total with total > 0: the percentage is the floor of the exact ratio, lies in [0, 100], is 0 when nothing passed, and is 100 exactly when all passed |
| BotSummary.Bar | bot.py:423-427 | for a percentage in [0, 100] the bar has 15 cells, and a cell is green exactly when its position is below `15*percentage//100` |
| BotSummary.BarLandmarks | bot.py:424-427 | 100 % gives a full green bar, anything below 7 % an all-white bar, and 80 % gives exactly 12 green cells followed by white |
| BotSummary.Color | bot.py:433 | green exactly when pytest exited with 0, red otherwise |
| BotSummary.SummaryEmbed | bot.py:409-434 | the embed shows the fallback counters (total never 0), their percentage in the title and the bar, the given link, and the exit-code colour |
| BotSummary.EmptyRunFollowsExitCode | bot.py:412-433 | a run without results is shown as 100 % with a full bar on exit code 0, and as 0 % in red otherwise |
| BotSummary.Title | bot.py:431 | the title starts with the bracketed profile and environment and ends with " % -", and the number between reads back as the percentage |
| BotRun.Annotated | bot.py:113-119 | each test keeps its report and gets its full duration |
| BotRun.BuildReport | bot.py:97-384 | the counters depend on the summary alone; a page exists exactly when report.json was read, has a summary and a test list, and renders; that page carries the counters, the total duration and the rendered grouping |
| BotRun.PageWrittenIffRenderable | bot.py:273-380 | for a document with a summary and a test list, index.html is written exactly when every failed test has a call section |
| BotRun.PageAndEmbedCounters | bot.py:103-419 | the page and the embed show the same counters unless the summary reported no tests; then the page shows 0 and the embed shows 1 |
| BotRun.AnnotateTests | bot.py:113-119 | the duration loop over the test entries yields exactly the annotated entries and the run's total duration |
| BotRun.GenerateReport | bot.py:91-384 | returns the summary counters and writes the specified page when there is one; otherwise index.html is left as it was, even if it is a page from an earlier run |
| BotRun.PublishMessages | bot.py:387-441 | after a completed run one or two messages follow: a warning exactly when the storage import failed (with or without a page) or an existing page failed to upload, then the summary embed, which links the page only when it was stored and otherwise shows the fallback link |
| BotRun.Publish | bot.py:387-441 | the messages are the ones specified above, with the page stored under its storage key; nothing but the bucket changes |
| BotRun.UploadPage | bot.py:387-407 | a failed storage import warns even without a page; otherwise index.html is uploaded whenever it exists, even a stale one; the bucket gains that one object and the link becomes its public URL only on a successful upload; a raising upload warns and keeps the fallback link |
| BotRun.RunTest | bot.py:53-456 | the command launched is the pytest command for the chosen profile and environment, and the execution is its outcome. report.json is removed first. The screenshots the hook saved during the run join those on disk, also when the run timed out or its output could not be decoded. A timeout posts only the start message and the timeout warning. A launch failure or undecodable output posts only the start message and the command error. On completion: the report block runs on what pytest wrote and on all screenshots now on disk, and the start message is followed by the upload and summary messages, built from the summary counters and pytest's exit code |
| BotRun.CapturedScreenshotIsShown | bot.py:278-281 | a test whose call-phase screenshot the hook saved during the run shows that screenshot in its report entry |
| CloudBot.SummaryKey | bot/discord_bot.py:80 | the summary read is summary.json in the `<ambiente>/<perfil>/` folder |
| CloudBot.ReportUrl | bot/discord_bot.py:126-129 | the report link is the public address of allure-report/index.html in the same bucket folder as the summary |
| CloudBot.ReadResults | bot/discord_bot.py:78-95 | no object at the ambiente/perfil summary key gives zeros; the read fails exactly when that object is not JSON or lacks `statistic.passed` or `statistic.failed`; otherwise the percentage times (passed + failed) equals 100·passed, and it is 0 when that sum is not positive |
| CloudBot.PercentageInRange | bot/discord_bot.py:93 | for non-negative counts the percentage lies in [0, 100] and is 100 exactly when something passed and nothing failed |
| CloudBot.EmbedColor | bot/discord_bot.py:43 | green exactly when nothing failed, red otherwise |
| CloudBot.FirstDone | bot/discord_bot.py:120-122 | the count it returns is at most the number of answers; every answer before it is "not yet" and the answer at it, if any, is "done" |
| CloudBot.FirstDoneIsFirst | bot/discord_bot.py:120-122 | any position preceded only by "not yet" and holding "done" or the end of the answers is the one FirstDone finds |
| CloudBot.ExecuteInCloudBuild | bot/discord_bot.py:102-137 | posts the announcement; a raising `create_build` ends the run there; otherwise posts the status message, edits it once per "not yet", and posts the result embed, built from the summary stored at the ambiente/perfil key, only after "done", when the build result and the summary read both succeed |
| CloudBot.AmbienteButton | bot/discord_bot.py:175-193 | each environment button passes on its own label |
| CloudBot.PerfilButton | bot/discord_bot.py:144-159 | each profile button passes on its own label |
| CloudBot.ButtonsCoverChoices | bot/discord_bot.py:144-193 | every environment and profile of the local bot has a button here under its own name |
| CloudBot.CloudPress | bot/discord_bot.py:144-193 | the environment view reacts exactly to its four labels, showing the profile view; the profile view carries the chosen environment into the build together with the pressed profile |
| CloudBot.CloudWizardRunsChosenPair | bot/discord_bot.py:144-168 | choosing an environment and then a profile builds exactly that pair |

## Left out

- Discord plumbing is left out: defer and follow-up calls, message wording, view registration in `on_ready`, command sync, and the `/auto` command. The model keeps only which button means what and the order of the messages.
- The pytest subprocess, `asyncio.wait_for` and `process.kill` are replaced by the outcome value `Execution`. It carries report.json as pytest left it and the calls of the screenshot hook. A killed pytest is taken to leave no report.json, because the JSON report is written when the session ends. The text of stdout and stderr is not modelled, only whether it decodes.
- The storage client is an oracle that either succeeds or raises. This covers the upload in bot.py and the summary download in bot/discord_bot.py. Credentials and clients are not modelled.
- The build client is replaced by the sequence of answers of `op.done()` and the outcome of `op.result()`. The source waits forever for a build that never finishes. The model stops when the observed answers run out and reports that it is still polling.
- The HTML, CSS and Chart.js markup and base64 image embedding are not modelled. The page is modelled as its structure. `:.2f` duration formatting is not modelled.
- Clock readings are parameters: the storage timestamp, the embed dates and the page footer.
- Durations are exact `real` sums, not floating-point sums.
- BotSummary.Percentage: computes `int((passed / total) * 100)` over exact rationals. Python's floating-point product can round just below an integer: 29 passed of 100 gives 28, not 29.
- CloudBot.ReadResults: the percentage is the exact ratio, not a float. The statistic values are taken to be integers.
- Text.Capitalize: letter case is changed for ASCII letters only. The same holds for `Lower`, used for ENVIRONMENT, PROFILE and HEADLESS.
- AppConfig.ReadAttributes: `int()` is modelled for an optional sign and ASCII digits. Python also accepts surrounding whitespace, underscores between digits and non-ASCII digits.
- Reading and parsing settings.yaml and report.json are not modelled. The parsed document is a parameter, and an unreadable report.json is a separate case. Test entries always carry `nodeid` and `outcome`.
- The health-check web server, the PORT and TOKEN variables and the logging calls are not modelled.
- View timeouts are not modelled: bot/discord_bot.py's views expire after 120 s.
- TestsConftest.MakeReport: an exception from `os.makedirs("screenshots")` (tests/conftest.py:48) is not modelled. That call sits outside the `try`, so the model takes the folder to be creatable.
- The wording of the exceptions `load_settings` raises is not modelled. `LoadError` keeps the environment, profile or key each error names.
- Concurrency is not modelled. Two runs share report.json and index.html with no guard.
- An exception raised while posting the upload warning is not modelled. The source then reaches the outer handler and posts a command error.
- The page objects under pages/ and tests/pages/ other than `BasePage`'s URL logic and `visible`, the browser fixtures, `pytest_configure`'s plugin blocking, the e-mail sender, and the tests themselves are not modelled. They drive a live browser or SMTP.
