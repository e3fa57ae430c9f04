# BenFresh website — a verified model of its client logic and scripts

The BenFresh site is a Next.js marketing site for a cleaning company in
Cologne. This project models, in Dafny, the parts of it that hold logic rather
than markup:

- the telemetry collector (`MonitoringSystem`): three queues, batching,
  flushing by fetch or beacon, the singleton and its deferred setup;
- the contact section's form validation and submission, and the
  `POST /api/contact` route that receives it;
- the cookie-consent banner, the light/dark theme switch and the
  breakpoint logger;
- the in-page accessibility checker;
- the browser classification, feature conjunction and outdated-browser
  warning;
- the navigation audit script and the content spell-check script.

Each source file becomes one module (`Util` holds the shared string
helpers). Code that changes state step by step is a class whose methods are
proved against pure step functions. Loops are methods with invariants. The
properties are proved as lemmas about those functions.

Browser and Node facilities are inputs:

- the environment (`window`, visibility, `sendBeacon`, development mode) is
  a value;
- storage holds an optional value that may fail to parse;
- regular-expression captures are given as sequences;
- the file system is a tree of entries;
- clocks and URLs are parameters;
- mail transport and the spell-checking library are abstract.

## Model

| member | source | states |
|---|---|---|
| Util.Or | src/app/api/contact/route.ts:32-35 | `o \|\| fallback` under JavaScript truthiness: the value when it is a non-empty string, the fallback otherwise, non-empty when either is |
| Util.Utf16Length | src/app/components/ContactSection.tsx:30 | `length`: between one and two code units per character |
| Util.Utf16LengthBmp | src/app/components/ContactSection.tsx:30 | a text inside the Basic Multilingual Plane has one code unit per character |
| Breakpoints.BreakpointRanges | src/utils/responsiveTester.js:7-14 | each breakpoint is exactly its documented width range (xs < 640, sm 640–767, md 768–1023, lg 1024–1279, xl ≥ 1280) |
| Breakpoints.BreakpointIsTightest | src/utils/responsiveTester.js:7-14 | a width reaches a breakpoint's rank exactly when it reaches that breakpoint's lower bound |
| Breakpoints.BreakpointMonotone | src/utils/responsiveTester.js:7-14 | a wider window never gets a smaller breakpoint |
| Breakpoints.LogBreakpoint | src/utils/responsiveTester.js:4-18 | nothing without a window; otherwise exactly two lines: the first names the breakpoint of the width, the second gives the width and height in pixels as decimal text |
| Breakpoints.GetBreakpoint | src/utils/responsiveTester.js:7-14 | the first threshold the width is below decides: under 640 `xs`, under 768 `sm`, under 1024 `md`, under 1280 `lg`, otherwise `xl` |
| Breakpoints.Label | src/utils/responsiveTester.js:9-13 | the five labels the helper prints |
| Breakpoints.IntToString | src/utils/responsiveTester.js:16-17 | the decimal text a template literal makes of the width and height, with a minus sign for a negative number |
| ThemeToggle.ThemeToggle.constructor | src/components/ThemeToggle.tsx:7-8 | first render: not dark, not mounted, browser state untouched |
| ThemeToggle.ThemeToggle.Mount | src/components/ThemeToggle.tsx:10-26 | after mount, dark mode is on iff the saved theme is `dark` or nothing is saved and the system prefers dark; the class follows; storage is untouched |
| ThemeToggle.ThemeToggle.Toggle | src/components/ThemeToggle.tsx:28-38 | the mode flips, and the `dark` class and stored theme string agree with the new mode |
| ThemeToggle.StoredThemeRoundTrip | src/components/ThemeToggle.tsx:14-17 | reading back the stored string after a toggle yields the same mode |
| ThemeToggle.ScriptAgreesWithMount | src/app/layout.tsx:43-57 | the inline pre-paint script and the mount rule agree on dark mode for every stored value |
| ThemeToggle.ToggleTwice | src/components/ThemeToggle.tsx:28-38 | toggling twice restores the mode, with class and storage agreeing |
| ThemeToggle.ShouldUseDarkMode | src/components/ThemeToggle.tsx:14-17 | dark when the saved theme is `dark`, or when nothing (or the empty string) is saved and the system prefers dark |
| ThemeToggle.ThemeName | src/components/ThemeToggle.tsx:28-37 | the stored strings: `dark` for dark mode, `light` otherwise |
| ThemeToggle.InlineScriptTheme | src/app/layout.tsx:41-58 | any stored non-empty theme string is applied as it is, otherwise the system preference; the `dark` class only for the string `dark` |
| ThemeToggle.ThemeToggle.RendersNothing | src/components/ThemeToggle.tsx:40-44 | nothing is rendered until the component has mounted |
| CookieBanner.DefaultConsent | src/components/CookieBanner.tsx:15-19 | only necessary cookies, no timestamp |
| CookieBanner.Stamp | src/components/CookieBanner.tsx:46-50 | saving keeps the three flags and sets `acceptedAt` to now |
| CookieBanner.ToggleFlipsOnlyNamed | src/components/CookieBanner.tsx:83-88 | a toggle negates exactly the named optional flag and nothing else |
| CookieBanner.ToggleInvolution | src/components/CookieBanner.tsx:83-88 | toggling the same flag twice restores the record |
| CookieBanner.TogglesCommute | src/components/CookieBanner.tsx:83-88 | toggles of the two flags commute |
| CookieBanner.LoadOutcome | src/components/CookieBanner.tsx:27-43 | the banner shows iff nothing parseable is stored; a parseable record is adopted |
| CookieBanner.Banner.constructor | src/components/CookieBanner.tsx:22-24 | default consent, both panels hidden |
| CookieBanner.Banner.Load | src/components/CookieBanner.tsx:27-43 | the mount effect's result is `LoadOutcome` of the stored value |
| CookieBanner.Banner.SaveConsent | src/components/CookieBanner.tsx:46-50 | the stamped record is stored and adopted |
| CookieBanner.Banner.AcceptAll | src/components/CookieBanner.tsx:53-62 | all three categories stored with the time; nothing rendered afterwards |
| CookieBanner.Banner.RejectOptional | src/components/CookieBanner.tsx:65-71 | exactly the default consent stored with the time; nothing rendered |
| CookieBanner.Banner.SavePreferences | src/components/CookieBanner.tsx:74-80 | the record as toggled is stored with the time; nothing rendered |
| CookieBanner.Banner.OpenPreferences | src/components/CookieBanner.tsx:125 | the preferences panel is shown |
| CookieBanner.Banner.ToggleCookieType | src/components/CookieBanner.tsx:83-88 | only the in-memory record changes, by `Toggled`; nothing is stored |
| CookieBanner.SaveThenReload | src/components/CookieBanner.tsx:27-50 | whatever was saved is what the next visit loads, with no banner |
| CookieBanner.Toggled | src/components/CookieBanner.tsx:83-88 | the record with the named optional flag negated and every other field kept |
| CookieBanner.Banner.RendersNothing | src/components/CookieBanner.tsx:91 | `null` exactly when neither the banner nor the preferences panel is shown |
| Monitoring.DeliveredAppend | src/utils/monitoringSystem.ts:363-385 | what a sequence of effects delivers is the concatenation of what its parts deliver |
| Monitoring.DeliveredLogsOnly | src/utils/monitoringSystem.ts:390-394 | debug lines deliver nothing to the server |
| Monitoring.FlushErrorsIsolated | src/utils/monitoringSystem.ts:327-334 | the error flush empties only the error queue; it sends one request for a non-empty queue in production, nothing for an empty one, no request in development |
| Monitoring.FlushMetricsIsolated | src/utils/monitoringSystem.ts:339-346 | the same for the metrics queue |
| Monitoring.FlushInteractionsIsolated | src/utils/monitoringSystem.ts:351-358 | the same for the interactions queue |
| Monitoring.StandardFlushRequests | src/utils/monitoringSystem.ts:156-166 | in production the standard flush empties every queue and sends one request per non-empty queue, errors then metrics then interactions |
| Monitoring.BeaconFlushSingleSend | src/utils/monitoringSystem.ts:171-197 | with `sendBeacon`, one beacon to `/all` carrying all three queues when any is non-empty, else nothing |
| Monitoring.BeaconFallback | src/utils/monitoringSystem.ts:171-175 | without `sendBeacon` the beacon path is the standard flush |
| Monitoring.StandardFlushClears | src/utils/monitoringSystem.ts:156-166 | the standard flush always leaves every queue empty |
| Monitoring.FlushAllAtMostOnce | src/utils/monitoringSystem.ts:156-197 | after `flushAll` every queue is empty and each record was delivered exactly once, or, in development without the beacon, not at all |
| Monitoring.StandardFlushDelivered | src/utils/monitoringSystem.ts:156-166 | the standard flush delivers exactly the queued records in production and none in development |
| Monitoring.SingleFlushDelivered | src/utils/monitoringSystem.ts:327-358 | what each per-queue flush delivers: its own queue in production, nothing in development |
| Monitoring.FlushAllIdempotent | src/utils/monitoringSystem.ts:156-166 | a second `flushAll` right after the first sends and changes nothing |
| Monitoring.TrackErrorBelowBatch | src/utils/monitoringSystem.ts:92-111 | after `trackError` the error queue is below the batch size; it flushes exactly when the append reaches 20 |
| Monitoring.TrackErrorsAccumulate | src/utils/monitoringSystem.ts:92-111 | below the threshold errors only accumulate, with no request |
| Monitoring.TwentyErrorsOneBatch | src/utils/monitoringSystem.ts:92-111 | twenty errors in production send exactly one batch of those twenty and leave the queue empty |
| Monitoring.TrackErrorsSplit | src/utils/monitoringSystem.ts:92-111 | tracking errors in two parts is tracking them all at once |
| Monitoring.TrackMetricAppendsOnly | src/utils/monitoringSystem.ts:116-131 | a metric is appended to its own queue and never causes a request |
| Monitoring.TrackInteractionAppendsOnly | src/utils/monitoringSystem.ts:136-151 | an interaction is appended to its own queue and never causes a request |
| Monitoring.MonitoringSystem.constructor | src/utils/monitoringSystem.ts:28-43 | empty queues, debug off, default endpoint, nothing set up |
| Monitoring.MonitoringSystem.Initialize | src/utils/monitoringSystem.ts:55-73 | schedules one idle setup unless already initialized or without a window |
| Monitoring.MonitoringSystem.RunIdleInit | src/utils/monitoringSystem.ts:59-68 | registers one more listener set, sets up performance tracking, starts a new timer and marks initialized |
| Monitoring.MonitoringSystem.SetupPerformanceTracking | src/utils/monitoringSystem.ts:229-242 | registers the load listener only when no import is pending |
| Monitoring.MonitoringSystem.StartAutomaticFlush | src/utils/monitoringSystem.ts:306-312 | a fresh timer becomes current; an earlier one keeps running |
| Monitoring.MonitoringSystem.StopAutomaticFlush | src/utils/monitoringSystem.ts:317-322 | the current timer, if any, is stopped and forgotten |
| Monitoring.MonitoringSystem.SetDebugMode | src/utils/monitoringSystem.ts:78-80 | sets debug mode |
| Monitoring.MonitoringSystem.SetEndpoint | src/utils/monitoringSystem.ts:85-87 | sets the endpoint |
| Monitoring.MonitoringSystem.SendToServer | src/utils/monitoringSystem.ts:363-385 | appends the effects of one send: a debug line in development, a fetch unless the batch is empty otherwise |
| Monitoring.MonitoringSystem.Log | src/utils/monitoringSystem.ts:390-394 | a console line only in debug mode |
| Monitoring.MonitoringSystem.FlushErrors | src/utils/monitoringSystem.ts:327-334 | new queues and effects are those of the error-flush step |
| Monitoring.MonitoringSystem.FlushMetrics | src/utils/monitoringSystem.ts:339-346 | new queues and effects are those of the metrics-flush step |
| Monitoring.MonitoringSystem.FlushInteractions | src/utils/monitoringSystem.ts:351-358 | new queues and effects are those of the interactions-flush step |
| Monitoring.MonitoringSystem.StandardFlush | src/utils/monitoringSystem.ts:156-166 | the three flushes in order, as the standard-flush step |
| Monitoring.MonitoringSystem.FlushWithBeacon | src/utils/monitoringSystem.ts:171-197 | new state and effects are those of the beacon step |
| Monitoring.MonitoringSystem.FlushAll | src/utils/monitoringSystem.ts:156-166 | new state and effects are those of the `flushAll` step |
| Monitoring.MonitoringSystem.TrackError | src/utils/monitoringSystem.ts:92-111 | schedules setup when not initialized, then applies the `trackError` step |
| Monitoring.MonitoringSystem.EnqueueError | src/utils/monitoringSystem.ts:106-110 | the report is appended and logged, the error queue is flushed exactly when it reaches the batch size, and the queue stays below the batch size |
| Monitoring.MonitoringSystem.TrackMetric | src/utils/monitoringSystem.ts:116-131 | dropped before initialization, else the append step |
| Monitoring.MonitoringSystem.TrackInteraction | src/utils/monitoringSystem.ts:136-151 | dropped before initialization, else the append step |
| Monitoring.MonitoringSystem.OnIntervalTick | src/utils/monitoringSystem.ts:306-312 | a timer tick flushes only while the page is visible |
| Monitoring.MonitoringSystem.OnPageHidden | src/utils/monitoringSystem.ts:209-223 | every registered hidden/pagehide listener runs the beacon flush |
| Monitoring.MonitoringSystem.OnUncaughtError | src/utils/monitoringSystem.ts:202-208 | each registered error listener tracks the error once, so a doubled setup queues it twice |
| Monitoring.BeaconFlushTwice | src/utils/monitoringSystem.ts:171-197 | a second beacon flush sends and changes nothing |
| Monitoring.Runtime.constructor | src/utils/monitoringSystem.ts:398 | evaluating the module creates the single instance |
| Monitoring.Runtime.GetInstance | src/utils/monitoringSystem.ts:45-50 | creates the instance on first use, then always returns the same one |
| Monitoring.SameInstance | src/utils/monitoringSystem.ts:45-50 | two calls return the same object |
| Monitoring.InitMonitoring | src/utils/monitoringSystem.ts:403-431 | with a window: applies the options given and schedules one deferred `initialize`; without: changes nothing |
| Monitoring.RunDeferredInitialize | src/utils/monitoringSystem.ts:427-429 | the deferred call runs `initialize` |
| Monitoring.TrackPageView | src/utils/monitoringSystem.ts:436-439 | a `pageView` interaction on the exported instance |
| Monitoring.InitializeWhenInitialized | src/utils/monitoringSystem.ts:55-58 | once initialized, `initialize` schedules nothing |
| Monitoring.StopTwice | src/utils/monitoringSystem.ts:317-322 | stopping twice is stopping once |
| Monitoring.DoubleSetupScenario | src/utils/monitoringSystem.ts:55-73 | two `initialize` calls before the idle callback runs give two listener sets and two timers, and stopping leaves one running |
| Monitoring.LogIf | src/utils/monitoringSystem.ts:390-394 | a console line only in debug mode |
| Monitoring.SendEffects | src/utils/monitoringSystem.ts:363-385 | in development only a debug line; otherwise nothing for an empty batch, else one POST of the batch to the endpoint plus the path |
| Monitoring.FlushErrorsStep | src/utils/monitoringSystem.ts:327-334 | nothing for an empty queue; otherwise the error queue is cleared and its snapshot sent to `/errors` |
| Monitoring.FlushMetricsStep | src/utils/monitoringSystem.ts:339-346 | the same for the metrics queue and `/metrics` |
| Monitoring.FlushInteractionsStep | src/utils/monitoringSystem.ts:351-358 | the same for the interactions queue and `/interactions` |
| Monitoring.StandardFlushStep | src/utils/monitoringSystem.ts:161-165 | the three per-queue flushes in the order errors, metrics, interactions |
| Monitoring.BeaconFlushStep | src/utils/monitoringSystem.ts:171-197 | without `sendBeacon` the standard flush; otherwise, when some queue holds data, one beacon to `/all` carrying all three queues, which are then cleared, in development too |
| Monitoring.FlushAllStep | src/utils/monitoringSystem.ts:156-166 | the beacon path when the page is hidden, the standard flush otherwise |
| Monitoring.MakeErrorReport | src/utils/monitoringSystem.ts:96-102 | the message and stack, the page address and user agent when there is a window (empty otherwise), and the timestamp |
| Monitoring.TrackErrorStep | src/utils/monitoringSystem.ts:104-110 | append the report, log it, and flush the error queue once it holds the batch size of 20 (line 32) |
| Monitoring.TrackErrorsStep | src/utils/monitoringSystem.ts:92-111 | `trackError` applied to each report in turn |
| Monitoring.TrackMetricStep | src/utils/monitoringSystem.ts:127-130 | append the metric and log it; never a flush |
| Monitoring.TrackInteractionStep | src/utils/monitoringSystem.ts:147-150 | append the interaction and log it; never a flush |
| Monitoring.Delivered | src/utils/monitoringSystem.ts:327-385 | the records the fetches and beacons carry, per kind and in send order; debug lines carry none |
| Monitoring.Requests | src/utils/monitoringSystem.ts:374-384 | the fetches and beacons among the effects |
| ContactForm.SplitSingle | src/app/components/ContactSection.tsx:35 | a split with one piece found no delimiter |
| ContactForm.DomainChars | src/app/components/ContactSection.tsx:35 | a domain of the pattern is made of label characters and dots |
| ContactForm.DomainOkToPattern | src/app/components/ContactSection.tsx:35 | every domain the recogniser accepts matches `([\w-]+\.)+[\w-]{2,}` |
| ContactForm.DomainPatternToOk | src/app/components/ContactSection.tsx:35 | every domain matching that pattern is accepted |
| ContactForm.DomainEquiv | src/app/components/ContactSection.tsx:35 | the domain recogniser and the pattern agree on all inputs |
| ContactForm.EmailToPattern | src/app/components/ContactSection.tsx:35 | every address the recogniser accepts matches the address pattern |
| ContactForm.PatternToEmail | src/app/components/ContactSection.tsx:35 | every address matching the pattern is accepted |
| ContactForm.EmailEquiv | src/app/components/ContactSection.tsx:34-40 | the recogniser accepts exactly the pattern's language, and an accepted address holds exactly one `@` |
| ContactForm.ValidIffNoErrors | src/app/components/ContactSection.tsx:26-51 | a form is valid exactly when every field's message is empty |
| ContactForm.InitialStateInvalid | src/app/components/ContactSection.tsx:5-11 | the untouched form fails all four checks, with the four German messages |
| ContactForm.CheckForm | src/app/components/ContactSection.tsx:26-51 | computes exactly the expected messages, and reports valid iff the name (2) and message (10) are long enough after trimming, counted in UTF-16 code units as `length` counts, the address matches and privacy is accepted |
| ContactForm.ReplyOutcome | src/app/components/ContactSection.tsx:71-95 | success iff the answer is ok and reports success; the message is never empty; no connection gives the connection message |
| ContactForm.ContactSection.constructor | src/app/components/ContactSection.tsx:14-24 | initial form, no errors, no flags, nothing posted |
| ContactForm.ContactSection.Validate | src/app/components/ContactSection.tsx:26-51 | stores the expected messages and reports validity, with the trimmed lengths in UTF-16 code units |
| ContactForm.ContactSection.HandleChange | src/app/components/ContactSection.tsx:53-62 | the named field takes the new value (the checkbox its checked state); an unknown name changes nothing |
| ContactForm.ContactSection.HandleSubmit | src/app/components/ContactSection.tsx:64-102 | an invalid form posts nothing and sets the error flag; a valid one is posted once, success and message follow the reply, and the form resets only on success |
| ContactForm.ContactSection.Reject | src/app/components/ContactSection.tsx:99-101 | an invalid form sets the error flag |
| ContactForm.ContactSection.Send | src/app/components/ContactSection.tsx:71-98 | the posted body is the form; outcome per `ReplyOutcome`; the form resets iff success |
| ContactForm.ContactSection.Notice | src/app/components/ContactSection.tsx:286-306 | a notice is shown iff success or error, and is never empty |
| ContactForm.SubmitUntouched | src/app/components/ContactSection.tsx:64-102 | submitting the untouched form posts nothing, marks all four fields and shows the "check your input" notice |
| ContactForm.InitialState | src/app/components/ContactSection.tsx:5-11 | empty texts and privacy not accepted |
| ContactForm.WordChar | src/app/components/ContactSection.tsx:36 | `\w`: an ASCII letter, a digit or `_` |
| ContactForm.LabelChar | src/app/components/ContactSection.tsx:36 | `[\w-]` |
| ContactForm.LocalChar | src/app/components/ContactSection.tsx:36 | `[\w-.]` |
| ContactForm.DomainPattern | src/app/components/ContactSection.tsx:36 | the language of `([\w-]+\.)+[\w-]{2,}`: a non-empty label and a dot, then the final label or another such domain |
| ContactForm.EmailPattern | src/app/components/ContactSection.tsx:36 | the language of `^[\w-.]+@([\w-]+\.)+[\w-]{2,}$` |
| ContactForm.DomainOk | src/app/components/ContactSection.tsx:36 | the recogniser for the domain: split at dots into at least two non-empty labels over `[\w-]`, the last of at least two characters |
| ContactForm.IsEmail | src/app/components/ContactSection.tsx:34-37 | the recogniser for the address: exactly one `@`, a non-empty local part over `[\w-.]`, a domain `DomainOk` accepts |
| ContactForm.FormValid | src/app/components/ContactSection.tsx:26-51 | the trimmed name holds at least 2 and the trimmed message at least 10 UTF-16 code units, the address matches and privacy is accepted |
| ContactForm.ExpectedErrors | src/app/components/ContactSection.tsx:28-48 | each field's German message exactly when its rule fails, the empty string otherwise; the subject is never checked |
| ContactRoute.Render | src/app/api/contact/route.ts:36-46 | a string property is inserted as itself |
| ContactRoute.RenderOr | src/app/api/contact/route.ts:35 | `${f \|\| fallback}`: the fallback for a falsy property, the property's text otherwise |
| ContactRoute.ReplaceNewlinesAppend | src/app/api/contact/route.ts:46 | newline replacement distributes over concatenation |
| ContactRoute.ReplaceNewlinesSound | src/app/api/contact/route.ts:46 | no newline is left, each one grows the text by four characters, and text without newlines is unchanged |
| ContactRoute.BuildMail | src/app/api/contact/route.ts:31-54 | the mail is built exactly when every inserted property converts to text and the message is a string (otherwise a `TypeError`); reply-to is the `email` property as received; from and to come from the environment or the defaults |
| ContactRoute.MailCarriesFields | src/app/api/contact/route.ts:35-37 | the text starts with the name line and ends with the message as sent; the subject rule |
| ContactRoute.Post | src/app/api/contact/route.ts:16-88 | 400 iff the body parsed (a JSON value that is not an object has no properties) and a required property is falsy; 500 iff the text is not JSON or is `null`, or the required properties are present but building the mail throws (a non-string message) or the production transport fails; success iff 200; a mail is handed to the transport iff in production, complete and buildable; logged iff not in production and answered 200; reply-to is the request's `email` |
| ContactRoute.NonTextMessageFails | src/app/api/contact/route.ts:46 | a truthy `message` that is not a string is answered 500 in every environment, and nothing is logged or sent |
| ContactRoute.NonObjectBodyRejected | src/app/api/contact/route.ts:19-28 | a JSON body that is not an object, such as `42`, is answered 400 |
| ContactRoute.RequestOf | src/app/components/ContactSection.tsx:74-78 | the posted body carries the four text fields |
| ContactRoute.ReplyOf | src/app/components/ContactSection.tsx:80-82 | the browser sees `ok` for a 2xx status and the route's message |
| ContactRoute.ValidFormHasRequiredFields | src/app/components/ContactSection.tsx:26-51 | a form the browser accepts has a non-empty name, address and message |
| ContactRoute.CompleteRequestOutcome | src/app/api/contact/route.ts:23-86 | a complete request fails only when the transport fails in production |
| ContactRoute.ValidFormAccepted | src/app/api/contact/route.ts:23-28 | end to end: a form the browser accepts is never answered 400, and its reply-to is the form's address |
| ContactRoute.Present | src/app/api/contact/route.ts:23 | JavaScript truthiness of a property: a non-empty string, or another value that is truthy |
| ContactRoute.Renders | src/app/api/contact/route.ts:31-54 | building `mailOptions` does not throw: every inserted property converts to text and `message` is a string |
| ContactRoute.ReplaceNewlines | src/app/api/contact/route.ts:46 | `message.replace(/\n/g, '<br/>')`: each newline becomes `<br/>` |
| ContactRoute.MailText | src/app/api/contact/route.ts:36 | the plain-text body: name, address and subject lines, then the message |
| ContactRoute.MailHtml | src/app/api/contact/route.ts:37-53 | the HTML template with the fields inserted unescaped and the message's newlines as `<br/>` |
| Navigation.DynamicTest | scripts/check-site-navigation.js:132-137 | the bracket test accepts exactly the names the model calls dynamic |
| Navigation.RouteSegment | scripts/check-site-navigation.js:132-137 | `[x]` becomes `:x`, any other name is kept |
| Navigation.ScanIsPageRoutes | scripts/check-site-navigation.js:116-163 | the scan appends exactly the pre-order list of page directories: the page-file branch never adds a route |
| Navigation.ScanEntryIsPageRoutes | scripts/check-site-navigation.js:118-161 | one loop iteration appends exactly that entry's page routes |
| Navigation.ScanDirForRoutes | scripts/check-site-navigation.js:116-163 | the loop computes the scan function |
| Navigation.ExtractRoutes | scripts/check-site-navigation.js:107-167 | `/` followed by the page routes, or `/` alone without an app directory |
| Navigation.PageRoutesRooted | scripts/check-site-navigation.js:139 | every discovered route begins with `/` |
| Navigation.EntryRoutesRooted | scripts/check-site-navigation.js:139 | the same for one entry |
| Navigation.AllRootedAppend | scripts/check-site-navigation.js:139 | rooted route lists stay rooted when joined |
| Navigation.SkippedContributesNothing | scripts/check-site-navigation.js:120-127 | a skipped directory contributes no route |
| Navigation.AddAllSound | scripts/check-site-navigation.js:174-177 | an insertion-ordered set holds each added value exactly once |
| Navigation.AddAllAppend | scripts/check-site-navigation.js:174-177 | adding two lists in turn is adding their concatenation |
| Navigation.TrimAll | scripts/check-site-navigation.js:196-220 | each value is trimmed, position by position |
| Navigation.Internal | scripts/check-site-navigation.js:201-203 | the internal links are exactly the hrefs starting with `/` |
| Navigation.Anchors | scripts/check-site-navigation.js:204-206 | every `#x` href contributes `x`, and only those |
| Navigation.StaticIds | scripts/check-site-navigation.js:212-220 | ids with `{` or `$` are dropped, every other trimmed id kept |
| Navigation.NavTexts | scripts/check-site-navigation.js:185-192 | navigation texts are non-empty and hold no `{` |
| Navigation.AddEach | scripts/check-site-navigation.js:174-228 | the add loop computes `AddAll` |
| Navigation.ExtractLinks | scripts/check-site-navigation.js:172-229 | the four sets are those collected from the files in order |
| Navigation.CollectedSound | scripts/check-site-navigation.js:172-229 | each set has no duplicates and holds exactly the values the files add |
| Navigation.InternalClassified | scripts/check-site-navigation.js:196-209 | a value is an internal link iff it is a link starting with `/` |
| Navigation.HrefClassified | scripts/check-site-navigation.js:196-209 | every href is a link, internal iff it starts with `/`, and a `#x` href puts `x` among the sections |
| Navigation.SectionsFromAnchorsOrStaticIds | scripts/check-site-navigation.js:204-220 | every section name comes from an anchor href or a static id |
| Navigation.Missing | scripts/check-site-navigation.js:234-278 | never more missing values than expected ones |
| Navigation.MissingMembers | scripts/check-site-navigation.js:234-278 | a value is missing exactly when it is expected and the lookup does not find it |
| Navigation.CollectMissing | scripts/check-site-navigation.js:234-278 | the shared check loop computes `Missing` |
| Navigation.CheckMissingRoutes | scripts/check-site-navigation.js:234-244 | the expected routes not found |
| Navigation.CheckNavItems | scripts/check-site-navigation.js:249-263 | the expected items no navigation text matches; a text matches when either contains the other (case-sensitive) or they are equal ignoring case |
| Navigation.CheckSectionLinks | scripts/check-site-navigation.js:268-278 | the expected sections no section link matches |
| Navigation.EmptySectionLinkMatchesAll | scripts/check-site-navigation.js:268-278 | one empty section link (from `href="#"`) makes every expected section count as present |
| Navigation.NavItemFoundByItself | scripts/check-site-navigation.js:249-263 | a navigation text equal to an item finds it |
| Navigation.CleanLink | scripts/check-site-navigation.js:373 | the link up to its first `?` |
| Navigation.Orphaned | scripts/check-site-navigation.js:372-375 | an internal link is an orphan exactly when no route equals it, or it with a trailing `/`, after the query is cut |
| Navigation.QueryIgnored | scripts/check-site-navigation.js:373-374 | a query string never changes whether a link is an orphan |
| Navigation.NoQuestionMark | scripts/check-site-navigation.js:373 | a link without `?` is its own clean form |
| Navigation.Audit | scripts/check-site-navigation.js:319-398 | the run's routes, links and four problem lists are those of the functions above |
| Navigation.AllChecksPassIff | scripts/check-site-navigation.js:388-393 | the run passes exactly when every expected route, item and section is found and no link is orphaned |
| Navigation.Skipped | scripts/check-site-navigation.js:120-125 | names starting with `_` or `.`, and `api` and `components` |
| Navigation.IsPageName | scripts/check-site-navigation.js:153-155 | `page.tsx`, `page.jsx` or `page.js` |
| Navigation.HasPage | scripts/check-site-navigation.js:142-146 | some entry of the directory, of whatever kind, has a page name |
| Navigation.IsDynamic | scripts/check-site-navigation.js:135 | a name from `[` to `]` |
| Navigation.ScanFrom | scripts/check-site-navigation.js:115-163 | the route list after the loop visits a directory's entries in order |
| Navigation.ScanEntry | scripts/check-site-navigation.js:118-162 | one iteration: a skipped name adds nothing; a directory adds its route when it holds a page, then its subtree; a page file adds its non-root parent route if not yet listed |
| Navigation.PageRoutes | scripts/check-site-navigation.js:115-163 | the reference: the routes of the directories holding a page, in pre-order |
| Navigation.EntryRoutes | scripts/check-site-navigation.js:129-151 | the routes one entry contributes to that reference |
| Navigation.Add | scripts/check-site-navigation.js:173-176 | `Set.add` on an insertion-ordered set: a value already present is not added again |
| Navigation.AddAll | scripts/check-site-navigation.js:178-221 | the values added in turn |
| Navigation.IsNavFile | scripts/check-site-navigation.js:182-183 | the content mentions `navigation`, `navbar` or `menu`, or the path `header`, `nav` or `footer` |
| Navigation.FilePart | scripts/check-site-navigation.js:182-220 | what one file adds to each of the four sets, in the order it adds them |
| Navigation.Gathered | scripts/check-site-navigation.js:178-221 | everything the files add to a set, file by file, duplicates included |
| Navigation.Collected | scripts/check-site-navigation.js:172-228 | each set as the run builds it: the gathered values, first occurrences kept |
| Navigation.NavMatches | scripts/check-site-navigation.js:253-257 | either text contains the other, or they are equal ignoring case |
| Navigation.SectionMatches | scripts/check-site-navigation.js:272 | equal, or either contains the other |
| Navigation.Present | scripts/check-site-navigation.js:238-272 | the "is it there?" test of each of the three checks |
| Navigation.RouteExists | scripts/check-site-navigation.js:373-374 | some route is the link without its query, or that with a trailing `/` |
| Navigation.AllChecksPass | scripts/check-site-navigation.js:388-390 | all four problem lists are empty |
| Accessibility.SkipIssue | src/utils/accessibilityChecker.ts:47-55 | a skipped-heading issue is medium and names the heading |
| Accessibility.CheckHeadingHierarchy | src/utils/accessibilityChecker.ts:34-61 | the loop carrying `prevLevel` yields exactly the issues of the headings that go more than one level below their predecessor, in order; nothing without a document |
| Accessibility.SkipIssuesBound | src/utils/accessibilityChecker.ts:41-58 | at most one issue per heading and none for the first |
| Accessibility.NoSkipIssuesIff | src/utils/accessibilityChecker.ts:47 | no issue exactly when no heading goes more than one level deeper than the one before |
| Accessibility.SkipIssueAt | src/utils/accessibilityChecker.ts:47-55 | every skipping heading is reported, suggesting the level right below its predecessor |
| Accessibility.AltIssues | src/utils/accessibilityChecker.ts:74-95 | missing alt is critical, empty alt low, any other alt no issue |
| Accessibility.CheckImagesAltText | src/utils/accessibilityChecker.ts:67-98 | the loop yields each image's alt issues in order |
| Accessibility.AltCriticalIff | src/utils/accessibilityChecker.ts:74-95 | the critical alt issues are exactly as many as the images without alt; all alt issues as many as missing plus empty |
| Accessibility.CheckColorContrast | src/utils/accessibilityChecker.ts:105-139 | one issue per element and suspicious class it carries, in order |
| Accessibility.ElementContrast | src/utils/accessibilityChecker.ts:122-135 | the issues for one element: one per listed class it carries, in list order |
| Accessibility.SpacedEntriesNeverMatch | src/utils/accessibilityChecker.ts:116-126 | list entries containing a space never equal a class token, so they add no issue |
| Accessibility.ContrastAtMostThree | src/utils/accessibilityChecker.ts:116-136 | with space-free class tokens only the first three (single-class) entries can match, so an element gets at most three issues |
| Accessibility.KeyboardIssues | src/utils/accessibilityChecker.ts:154-166 | flagged iff no `tabindex` or neither key handler |
| Accessibility.CheckKeyboardAccess | src/utils/accessibilityChecker.ts:145-169 | the loop yields each element's keyboard issue in order |
| Accessibility.LabelIssues | src/utils/accessibilityChecker.ts:182-210 | hidden fields are skipped; flagged iff no label (by `for` when it has an id, enclosing otherwise), no `aria-label` and no `aria-labelledby` |
| Accessibility.CheckFormLabels | src/utils/accessibilityChecker.ts:175-213 | the loop yields each field's label issue in order |
| Accessibility.IdOverridesWrappingLabel | src/utils/accessibilityChecker.ts:188-195 | a field with an id but no matching `for` is flagged even inside a wrapping label |
| Accessibility.RunAllChecks | src/utils/accessibilityChecker.ts:218-226 | the five checks concatenated in order |
| Accessibility.BySeverity | src/utils/accessibilityChecker.ts:244-247 | a group holds only issues of its severity |
| Accessibility.BySeverityAppend | src/utils/accessibilityChecker.ts:244-247 | grouping distributes over concatenation |
| Accessibility.GroupsPartition | src/utils/accessibilityChecker.ts:244-247 | the four groups partition the issues: sizes add up, and an issue's own group holds it as often as the list does |
| Accessibility.MediumGroupIsHeadings | src/utils/accessibilityChecker.ts:218-247 | the medium group is exactly the heading issues |
| Accessibility.LogAccessibilityIssues | src/utils/accessibilityChecker.ts:231-290 | nothing without a document, the all-clear for no issues, otherwise the four severity groups |
| Accessibility.TagName | src/utils/accessibilityChecker.ts:44-50 | `heading.tagName`: `H` and the level |
| Accessibility.Skips | src/utils/accessibilityChecker.ts:47 | a heading after the first that is more than one level deeper than the heading before it |
| Accessibility.SkipIssues | src/utils/accessibilityChecker.ts:41-58 | the reference for the heading loop: one issue per skipping heading, by position |
| Accessibility.AllAltIssues | src/utils/accessibilityChecker.ts:74-96 | the image issues in document order |
| Accessibility.CountMissingAlt | src/utils/accessibilityChecker.ts:77 | the images without an `alt` attribute |
| Accessibility.CountEmptyAlt | src/utils/accessibilityChecker.ts:85 | the images with an empty `alt` |
| Accessibility.ContrastIssue | src/utils/accessibilityChecker.ts:127-133 | the high-severity contrast issue naming the class |
| Accessibility.ContrastIssues | src/utils/accessibilityChecker.ts:125-135 | one issue per listed class the element carries, in list order |
| Accessibility.AllContrastIssues | src/utils/accessibilityChecker.ts:122-136 | the contrast issues of every element, in document order |
| Accessibility.SpaceFree | src/utils/accessibilityChecker.ts:123 | a class token holds no space, as `classList` guarantees |
| Accessibility.AllKeyboardIssues | src/utils/accessibilityChecker.ts:153-166 | the keyboard issues in document order |
| Accessibility.HasLabel | src/utils/accessibilityChecker.ts:185-195 | a field with a non-empty id is labelled only by a `label for` that id; one without only by an enclosing label |
| Accessibility.NeedsLabel | src/utils/accessibilityChecker.ts:183-201 | not hidden, not labelled, and without `aria-label` or `aria-labelledby` |
| Accessibility.AllLabelIssues | src/utils/accessibilityChecker.ts:182-210 | the label issues in document order |
| Accessibility.AllIssues | src/utils/accessibilityChecker.ts:218-226 | the five checks' issues concatenated in the order of `runAllChecks` |
| SpellCheck.Kept | scripts/spell-check.js:115-141 | never more texts kept than captured |
| SpellCheck.KeptMembers | scripts/spell-check.js:115-141 | a text is kept exactly when it is the trimmed form of a capture and passes the filter |
| SpellCheck.KeptSound | scripts/spell-check.js:115-141 | every kept text passes the filter and is the trimmed form of some capture |
| SpellCheck.KeptComplete | scripts/spell-check.js:115-141 | every capture whose trimmed form passes the filter is kept |
| SpellCheck.ParentPathTestRedundant | scripts/spell-check.js:131-132 | the `../` test is subsumed by the `./` test |
| SpellCheck.KeepTrimmed | scripts/spell-check.js:115-141 | one filtering loop computes `Kept` |
| SpellCheck.ExtractText | scripts/spell-check.js:101-144 | attribute values, then kept JSX texts, then kept string literals (longer than three UTF-16 code units and free of path, URL and import markers) |
| SpellCheck.WordsSound | scripts/spell-check.js:225-227 | every word is non-empty, trimmed and free of delimiters |
| SpellCheck.DigitsAreConstantNames | scripts/spell-check.js:243-244 | the number rule is subsumed by the constant-name rule |
| SpellCheck.SpellChecker.constructor | scripts/spell-check.js:23 | a checker over the dictionary with no added words |
| SpellCheck.SpellChecker.Add | scripts/spell-check.js:206 | one word is appended to the added words |
| SpellCheck.SpellChecker.Setup | scripts/spell-check.js:203-215 | the ignored and additional words are added, in order |
| SpellCheck.SpellChecker.AddAll | scripts/spell-check.js:205-207 | each word of a list is added to the dictionary, in order |
| SpellCheck.SetupCoversConfiguredWords | scripts/spell-check.js:203-215 | after setup every configured word is among the added words |
| SpellCheck.SpellChecker.Suggestions | scripts/spell-check.js:250 | at most the first three corrections, in order |
| SpellCheck.SpellChecker.CheckSpelling | scripts/spell-check.js:220-260 | the loop yields the reports of the text's words in order |
| SpellCheck.SpellChecker.ReportsExact | scripts/spell-check.js:229-259 | a word is reported exactly when it occurs, is not skipped (at most one UTF-16 code unit, markup, literals, numbers, constant names) and is misspelled, with the file name and its suggestions |
| SpellCheck.SpellChecker.ConfiguredWordsNotReported | scripts/spell-check.js:203-259 | after setup no configured word is reported |
| SpellCheck.OfFile | scripts/spell-check.js:300-306 | a file's group holds only that file's reports |
| SpellCheck.GroupByFile | scripts/spell-check.js:300-306 | the keys in first-appearance order, each mapped to its reports in order |
| SpellCheck.FileOrderExact | scripts/spell-check.js:300-306 | each reported file appears once among the keys |
| SpellCheck.ListUnique | scripts/spell-check.js:321-326 | the summary loop computes `Unique` |
| SpellCheck.UniqueExact | scripts/spell-check.js:321-331 | each reported word is listed exactly once, with the suggestions of its first report |
| SpellCheck.UniqueWords | scripts/spell-check.js:321-326 | a word is listed exactly when some report carries it |
| SpellCheck.UniqueDistinct | scripts/spell-check.js:321-326 | no word is listed twice |
| SpellCheck.UniqueFirst | scripts/spell-check.js:321-326 | each listed entry comes from the first report of its word |
| SpellCheck.InheritedNeverListed | scripts/spell-check.js:323 | as written, a word named like an `Object.prototype` member is never listed |
| SpellCheck.ConstructorDropped | scripts/spell-check.js:323 | a misspelled `constructor` is missing from the list as written but present with an own-key lookup |
| SpellCheck.AsWrittenAgrees | scripts/spell-check.js:321-326 | outside the inherited names the two lookups agree |
| SpellCheck.KeepJsx | scripts/spell-check.js:119 | a non-empty trimmed text that starts with no `{` and holds no `function(` |
| SpellCheck.KeepLiteral | scripts/spell-check.js:131-138 | longer than three UTF-16 code units, and no `./`, `../`, `http`, `import ` or `from ` |
| SpellCheck.IsWordDelimiter | scripts/spell-check.js:225 | the characters of the split expression |
| SpellCheck.NonEmptyTrimmed | scripts/spell-check.js:226-227 | the trimmed pieces that are not empty, in order |
| SpellCheck.Words | scripts/spell-check.js:225-227 | the text split at the delimiters, trimmed, empty pieces dropped |
| SpellCheck.AllDigits | scripts/spell-check.js:242 | `/^\d+$/` |
| SpellCheck.ConstantName | scripts/spell-check.js:243 | `/^[A-Z0-9_]+$/` |
| SpellCheck.Skip | scripts/spell-check.js:231-244 | at most one UTF-16 code unit, a `{` or `<` start, a `}`, `/>` or `=`, a literal name, a number or a constant name |
| SpellCheck.SpellChecker.IsMisspelled | scripts/spell-check.js:249 | neither the word list nor the added words hold the word |
| SpellCheck.SpellChecker.Reports | scripts/spell-check.js:229-257 | one report per word that is not skipped and is misspelled, in word order, with its suggestions and the file name |
| SpellCheck.FileOrder | scripts/spell-check.js:300-316 | the keys of `byFile`: the file names in order of first appearance |
| SpellCheck.Unique | scripts/spell-check.js:321-326 | the intended summary: each word once, with its first report's suggestions, in order of first appearance |
| SpellCheck.UniqueAsWritten | scripts/spell-check.js:321-326 | the summary as written: a word whose name `Object.prototype` holds is never stored |
| BrowserCompat.DigitRun | src/utils/browserCompat.js:21 | the maximal run of digits at a position |
| BrowserCompat.ParseInt | src/utils/browserCompat.js:22 | a number exactly when the text starts with a digit (NaN otherwise) |
| BrowserCompat.VersionAtShape | src/utils/browserCompat.js:21 | a captured version is digits, a dot, digits, and parses to its major number |
| BrowserCompat.VersionWithPrefixAt | src/utils/browserCompat.js:45 | a version found at a position follows one of the prefixes there |
| BrowserCompat.MatchVersionShape | src/utils/browserCompat.js:21-51 | whatever the leftmost match captures is a version |
| BrowserCompat.NoPrefixNoVersion | src/utils/browserCompat.js:27 | without its prefix nothing is captured |
| BrowserCompat.Classify | src/utils/browserCompat.js:19-53 | the if-chain: Chrome, Edge, Firefox, Safari, Internet Explorer, Opera, otherwise unknown; the first test that holds wins |
| BrowserCompat.DetectBrowser | src/utils/browserCompat.js:8-61 | the server answer without a window; otherwise the first matching browser's name and the user agent |
| BrowserCompat.DetectedVersionShape | src/utils/browserCompat.js:14-60 | the version is a captured version or a placeholder |
| BrowserCompat.CompatibleIff | src/utils/browserCompat.js:14-60 | compatible iff unrecognised, or not Internet Explorer with a version reaching the threshold (Chrome 60, Edge 79, Firefox 60, Safari 12, Opera 60) |
| BrowserCompat.EdgWins | src/utils/browserCompat.js:19-29 | any agent containing `Edg` is Edge |
| BrowserCompat.SafariHasNoChrome | src/utils/browserCompat.js:37 | Safari is chosen only without `Chrome` |
| BrowserCompat.ChromiumOperaIsOpera | src/utils/browserCompat.js:19-53 | a Chromium-based Opera agent falls through to Opera |
| BrowserCompat.LegacyEdgeIncompatible | src/utils/browserCompat.js:25-29 | an `Edge/` agent without `Edg/` gets version `Unknown` and is incompatible |
| BrowserCompat.CheckFeatureSupport | src/utils/browserCompat.js:67-109 | all supported without a window; the probes as given |
| BrowserCompat.AllFeaturesIff | src/utils/browserCompat.js:100-103 | the conjunction of every probe except WebP |
| BrowserCompat.WebpIgnored | src/utils/browserCompat.js:100-103 | WebP support never changes the verdict |
| BrowserCompat.Page.constructor | src/utils/browserCompat.js:116-122 | no warning present at first |
| BrowserCompat.Page.ShowCompatibilityWarning | src/utils/browserCompat.js:116-153 | inserts one warning first, and sets the session flag to `false`, only when none is present, the browser is incompatible and a target exists; at most one warning ever |
| BrowserCompat.Page.InitBrowserCompatChecks | src/utils/browserCompat.js:285-303 | detects and checks features; when the session says dismissed nothing changes; otherwise the listener is installed, a warning is inserted first (and the session value set to `false` when storage works) exactly when none is present, the browser is incompatible and a target exists, and nothing else changes |
| BrowserCompat.Page.ClickWarningButton | src/utils/browserCompat.js:302-311 | the button's `onclick` (line 136) removes the warning; the listener records the dismissal once and detaches |
| BrowserCompat.RemoveWarnings | src/utils/browserCompat.js:136 | never more nodes than before |
| BrowserCompat.RemoveWarningsCount | src/utils/browserCompat.js:136 | removal leaves no warning and every other node |
| BrowserCompat.DismissedStaysDismissed | src/utils/browserCompat.js:285-309 | an incompatible browser sees the warning once; after dismissal a later load in the session shows none |
| BrowserCompat.HomePageNeverWarns | src/app/page.tsx:86 | the home page's call without an element never shows a warning, yet installs the listener unless the session says dismissed |
| BrowserCompat.FetchOk | src/utils/browserCompat.js:261 | `ok` iff the status is in the 2xx class |
| BrowserCompat.ChromeTest | src/utils/browserCompat.js:19 | `Chrome` and none of `Chromium`, `Edge`, `Edg`, `OPR`, `Opera` |
| BrowserCompat.Name | src/utils/browserCompat.js:20-50 | the reported names |
| BrowserCompat.VersionPrefixes | src/utils/browserCompat.js:21-51 | what each version expression reads after: `Chrome/`, `Edg/`, `Firefox/`, `Version/` for Safari, `MSIE ` or `rv:`, `OPR/` or `Opera/` |
| BrowserCompat.Threshold | src/utils/browserCompat.js:22-52 | Chrome 60, Edge 79, Firefox 60, Safari 12, Opera 60 |
| BrowserCompat.AtLeast | src/utils/browserCompat.js:22 | `parseInt(version) >= threshold`, false for NaN |
| BrowserCompat.VersionAt | src/utils/browserCompat.js:21 | `\d+\.\d+` at one position: greedy digits, a dot, greedy digits |
| BrowserCompat.IsVersion | src/utils/browserCompat.js:21 | digits, a dot, digits |
| BrowserCompat.MatchVersion | src/utils/browserCompat.js:21-51 | the leftmost match, the alternatives tried in order at each position |
| BrowserCompat.Entries | src/utils/browserCompat.js:101 | `Object.entries(features)` in key order |
| BrowserCompat.Counted | src/utils/browserCompat.js:102 | every key except `webp` and `allFeaturesSupported` |
| BrowserCompat.EveryCounted | src/utils/browserCompat.js:101-103 | every counted entry is true |
| BrowserCompat.WarningCount | src/utils/browserCompat.js:118 | the warnings among the target's children |
| BrowserCompat.Page.HasWarning | src/utils/browserCompat.js:118 | `getElementById` finds the warning |
| BrowserCompat.Page.WarningDismissed | src/utils/browserCompat.js:290-295 | the session value is `true`; a storage failure reads as not dismissed |

## Left out

- Browser plumbing is not modelled: `fetch`, `sendBeacon`, `Blob`, `requestIdleCallback`, timers, event listeners, the `web-vitals` import and navigation timing. These are effects in an outbox, counters of pending callbacks, and an environment value.
- Clocks, `window.location.href` and the user agent are parameters. So are the session and local storage, which are optional values that may fail to parse.
- Regular expressions that only capture text (hrefs, ids, tag texts, attribute values, quoted strings) are sequences of captures. The expressions whose acceptance decides behaviour are written out as recognisers over ASCII: the address pattern, the delimiter split, the skip rules and the version captures.
- `String.prototype.trim` is narrowed to ASCII whitespace, and `toLowerCase` to ASCII letters.
- `parseInt` is modelled only on texts that start with their digits, which is all `detectBrowser` passes it. Leading whitespace and signs are not modelled.
- The file system of the scripts is a tree of entries or a list of captured files. `findFilesToCheck` and its directory filters are not part of this model, and neither is the `npm run postbuild` call.
- Console output is not modelled. The printed groups and lists are values, and the log lines of the breakpoint helper are strings.
- The spell-checking library is a word list and a correction function. An added word counts as correctly spelled.
- The mail transport is a flag saying whether `sendMail` fails. A non-string `email` is handed on as the reply-to address as received; what the transport makes of it is not modelled.
- A JSON property that is not a string is known only by its truthiness and the text a template literal makes of it; its full structure is not modelled. The HTML body is built from its fixed template parts, and nothing in it is escaped, as in the source.
- The IntersectionObserver and fetch fallbacks are not modelled beyond the `ok` rule. Neither are the WebP probe or the body classes it sets, because they are geometry, image events and network code.
- `OptimizedImage`, `WhatsAppButton`, structured data, page markup, `setup-ssl.js`, `backup.js` and `generate-social-previews.js` are not part of this model. They are markup, prompts, archiving or canvas drawing.
- ContactForm.ContactSection.HandleChange: it requires the checkbox event to come from the `privacy` input and text events from the others, as the rendered form guarantees.
- ContactForm.ContactSection.HandleSubmit: it requires that no submission is in flight, because the submit button is disabled while loading (ContactSection.tsx:269).
- Monitoring.MonitoringSystem.OnIntervalTick: the 60-second period is not modelled. A tick is an event the environment delivers.
- Accessibility.LabelIssues: a field id is taken to hold no `"`, `\`, line break or CSS escape. The check builds the selector `label[for="${id}"]` from the raw id (src/utils/accessibilityChecker.ts:190). For such an id `querySelector` throws a `SyntaxError`, or it decodes the escape and compares a different string. The model looks the id up as it is.
- Accessibility.CheckFormLabels: under the same assumption about ids, the `SyntaxError` that would end `checkFormLabels`, `runAllChecks` and `logAccessibilityIssues` is not modelled.
- Accessibility.ContrastAtMostThree: it requires class tokens to hold no space, which `classList` guarantees.
- Three behaviours of the collector are kept as the code has them:
  - `trackError` calls `initialize` and queues the error before setup has run (src/utils/monitoringSystem.ts:94-104);
  - `initialize` tests only `initialized`, which the deferred callback sets, so two calls before it runs schedule setup twice (:55-73, `DoubleSetupScenario`);
  - `flushWithBeacon` has no development-mode test, so the beacon is sent in development too (:171-197).

## Findings

| source | as written | input that shows it | evidently intended | confidence | as-written member | corrected member |
|---|---|---|---|---|---|---|
| scripts/spell-check.js:323 | `!uniqueWords[entry.word]` on a plain object also finds inherited `Object.prototype` members | a misspelled word `constructor` (or `toString`, `valueOf`, …) is counted in the total but never listed in its file's summary | each distinct misspelled word is listed once, with its first suggestions (an own-key test) | not executed; high for the lookup, the word must also reach the report | SpellCheck.UniqueAsWritten (SpellCheck.ConstructorDropped, SpellCheck.InheritedNeverListed) | SpellCheck.Unique (SpellCheck.ListUnique, SpellCheck.UniqueExact) |
| src/app/page.tsx:86 | `initBrowserCompatChecks()` is called without an element, so `targetElement` is undefined when the warning is shown (src/utils/browserCompat.js:122) | any incompatible agent, for instance an Internet Explorer 11 agent with `Trident/7.0; rv:11.0` | the document body is passed, so an outdated browser is warned once per session | not executed; high, the call has no argument | BrowserCompat.HomePageNeverWarns | BrowserCompat.DismissedStaysDismissed |
