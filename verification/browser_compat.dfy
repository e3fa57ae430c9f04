/** Browser compatibility: classifying the user agent and reading its
    version, the synchronous feature conjunction, the one-time outdated
    browser warning with its session dismissal, and the `ok` rule of the
    fetch fallback. */
module BrowserCompat {
  import opened Util

  // ---------------------------------------------------------------------
  // Numbers and versions inside the user agent
  // ---------------------------------------------------------------------

  /** Length of the run of digits of `s` starting at `j`. */
  function DigitRun(s: string, j: nat): (n: nat)
    ensures j + n <= |s| || (j >= |s| && n == 0)
    ensures forall k :: j <= k < j + n ==> IsDigit(s[k])
    ensures j + n < |s| ==> !IsDigit(s[j + n])
    decreases |s| - j
  {
    if j < |s| && IsDigit(s[j]) then 1 + DigitRun(s, j + 1) else 0
  }

  function DigitsValue(d: string): nat
    requires forall k :: 0 <= k < |d| ==> IsDigit(d[k])
  {
    if d == [] then 0 else DigitsValue(d[..|d| - 1]) * 10 + DigitValue(d[|d| - 1])
  }

  function DigitValue(c: char): nat
    requires IsDigit(c)
  {
    c as int - '0' as int
  }

  /** `parseInt` of a text starting with its number: the value of the
      leading digits, `None` (NaN) when there are none. */
  function ParseInt(s: string): (r: Option<nat>)
    ensures r.Some? <==> s != [] && IsDigit(s[0])
  {
    var n := DigitRun(s, 0);
    if n == 0 then None else Some(DigitsValue(s[..n]))
  }

  /** `\d+\.\d+` matched at `j`: greedy digit runs on both sides of the dot. */
  function VersionAt(ua: string, j: nat): Option<string> {
    var a := DigitRun(ua, j);
    if a > 0 && j + a < |ua| && ua[j + a] == '.' && DigitRun(ua, j + a + 1) > 0 then
      Some(ua[j..j + a + 1 + DigitRun(ua, j + a + 1)])
    else None
  }

  /** A version as the expressions capture it: digits, a dot, digits. */
  predicate IsVersion(v: string) {
    exists k | 0 < k < |v| - 1 :: v[k] == '.' && (forall m :: 0 <= m < |v| ==> m == k || IsDigit(v[m]))
  }

  lemma VersionAtIsVersion(ua: string, j: nat)
    requires VersionAt(ua, j).Some?
    ensures IsVersion(VersionAt(ua, j).value)
  {
    var a := DigitRun(ua, j);
    var v := VersionAt(ua, j).value;
    assert v[a] == '.';
    assert forall m :: 0 <= m < |v| ==> m == a || IsDigit(v[m]);
  }

  lemma VersionAtShape(ua: string, j: nat)
    requires VersionAt(ua, j).Some?
    ensures IsVersion(VersionAt(ua, j).value)
    ensures ParseInt(VersionAt(ua, j).value) == Some(DigitsValue(ua[j..j + DigitRun(ua, j)]))
  {
    var a := DigitRun(ua, j);
    var v := VersionAt(ua, j).value;
    VersionAtIsVersion(ua, j);
    assert v[a] == '.';
    assert DigitRun(v, 0) == a by {
      DigitRunPrefix(ua, j, v, 0, a);
    }
    assert v[..a] == ua[j..j + a];
  }

  /** The digit run of `v = ua[j..]`-prefix agrees with the one in `ua`. */
  lemma {:induction false} DigitRunPrefix(ua: string, j: nat, v: string, i: nat, a: nat)
    requires a == DigitRun(ua, j) && i <= a && a < |v| && j + |v| <= |ua|
    requires v == ua[j..j + |v|] && !IsDigit(v[a])
    ensures DigitRun(v, i) == a - i
    decreases a - i
  {
    if i < a {
      assert v[i] == ua[j + i];
      DigitRunPrefix(ua, j, v, i + 1, a);
    }
  }

  /** The version after the first of `prefixes` that occurs at `i` and is
      followed by a version. */
  function VersionWithPrefixAt(ua: string, prefixes: seq<string>, i: nat): (r: Option<string>)
    ensures r.Some? ==> exists p :: p in prefixes && OccursAt(ua, p, i) && VersionAt(ua, i + |p|) == r
  {
    if prefixes == [] then None
    else if OccursAt(ua, prefixes[0], i) && VersionAt(ua, i + |prefixes[0]|).Some? then VersionAt(ua, i + |prefixes[0]|)
    else VersionWithPrefixAt(ua, prefixes[1..], i)
  }

  /** `ua.match(/(?:p1|p2…)(\d+\.\d+)/)?.[1]`: the leftmost match, searching
      from offset `from`. */
  function MatchVersion(ua: string, prefixes: seq<string>, from: nat): Option<string>
    decreases |ua| + 1 - from
  {
    if from > |ua| then None
    else
      match VersionWithPrefixAt(ua, prefixes, from)
      case Some(v) => Some(v)
      case None => MatchVersion(ua, prefixes, from + 1)
  }

  /** Whatever is captured has the shape of a version. */
  lemma {:induction false} MatchVersionShape(ua: string, prefixes: seq<string>, from: nat)
    requires MatchVersion(ua, prefixes, from).Some?
    ensures IsVersion(MatchVersion(ua, prefixes, from).value)
    decreases |ua| + 1 - from
  {
    if VersionWithPrefixAt(ua, prefixes, from).Some? {
      PrefixedVersionShape(ua, prefixes, from);
    } else {
      MatchVersionShape(ua, prefixes, from + 1);
    }
  }

  lemma {:induction false} PrefixedVersionShape(ua: string, prefixes: seq<string>, i: nat)
    requires VersionWithPrefixAt(ua, prefixes, i).Some?
    ensures IsVersion(VersionWithPrefixAt(ua, prefixes, i).value)
    decreases |prefixes|
  {
    if OccursAt(ua, prefixes[0], i) && VersionAt(ua, i + |prefixes[0]|).Some? {
      VersionAtIsVersion(ua, i + |prefixes[0]|);
    } else {
      PrefixedVersionShape(ua, prefixes[1..], i);
    }
  }

  /** Without an occurrence of its only prefix nothing is captured. */
  lemma {:induction false} NoPrefixNoVersion(ua: string, p: string, from: nat)
    requires forall i :: from <= i <= |ua| ==> !OccursAt(ua, p, i)
    ensures MatchVersion(ua, [p], from) == None
    decreases |ua| + 1 - from
  {
    if from <= |ua| {
      NoPrefixNoVersion(ua, p, from + 1);
    }
  }

  // ---------------------------------------------------------------------
  // Classification
  // ---------------------------------------------------------------------

  datatype Browser = Chrome | Edge | Firefox | Safari | InternetExplorer | Opera | UnknownBrowser

  predicate ChromeTest(ua: string) {
    Contains(ua, "Chrome") && !(Contains(ua, "Chromium") || Contains(ua, "Edge") || Contains(ua, "Edg")
                                || Contains(ua, "OPR") || Contains(ua, "Opera"))
  }

  /** The if-chain of `detectBrowser`; the first test that holds wins. */
  function Classify(ua: string): Browser {
    if ChromeTest(ua) then Chrome
    else if Contains(ua, "Edg") then Edge
    else if Contains(ua, "Firefox") then Firefox
    else if Contains(ua, "Safari") && !Contains(ua, "Chrome") then Safari
    else if Contains(ua, "MSIE") || Contains(ua, "Trident") then InternetExplorer
    else if Contains(ua, "OPR") || Contains(ua, "Opera") then Opera
    else UnknownBrowser
  }

  function Name(b: Browser): string {
    match b
    case Chrome => "Chrome"
    case Edge => "Edge"
    case Firefox => "Firefox"
    case Safari => "Safari"
    case InternetExplorer => "Internet Explorer"
    case Opera => "Opera"
    case UnknownBrowser => "Unknown"
  }

  /** The expression prefixes each browser's version is read after. */
  function VersionPrefixes(b: Browser): seq<string> {
    match b
    case Chrome => ["Chrome/"]
    case Edge => ["Edg/"]
    case Firefox => ["Firefox/"]
    case Safari => ["Version/"]
    case InternetExplorer => ["MSIE ", "rv:"]
    case Opera => ["OPR/", "Opera/"]
    case UnknownBrowser => []
  }

  /** The lowest supported major version. */
  function Threshold(b: Browser): nat {
    match b
    case Chrome => 60
    case Edge => 79
    case Firefox => 60
    case Safari => 12
    case _ => 60
  }

  datatype BrowserInfo = BrowserInfo(name: string, version: string, isCompatible: bool, userAgent: Option<string>)

  /** `parseInt(version) >= threshold`; NaN compares false. */
  predicate AtLeast(version: string, threshold: nat) {
    match ParseInt(version)
    case None => false
    case Some(n) => n >= threshold
  }

  /** `detectBrowser`: `window` is the user agent when there is a window. */
  function DetectBrowser(window: Option<string>): (r: BrowserInfo)
    ensures window.None? ==> r == BrowserInfo("server", "N/A", true, None)
    ensures window.Some? ==> r.userAgent == window && r.name == Name(Classify(window.value))
  {
    match window
    case None => BrowserInfo("server", "N/A", true, None)
    case Some(ua) =>
      var b := Classify(ua);
      if b == UnknownBrowser then BrowserInfo("Unknown", "Unknown", true, window)
      else
        var version := match MatchVersion(ua, VersionPrefixes(b), 0) case Some(v) => v case None => "Unknown";
        BrowserInfo(Name(b), version, b != InternetExplorer && AtLeast(version, Threshold(b)), window)
  }

  /** The version reported is a captured version or a placeholder. */
  lemma DetectedVersionShape(window: Option<string>)
    ensures var v := DetectBrowser(window).version;
            v == "Unknown" || v == "N/A" || IsVersion(v)
  {
    if window.Some? {
      var b := Classify(window.value);
      if b != UnknownBrowser && MatchVersion(window.value, VersionPrefixes(b), 0).Some? {
        MatchVersionShape(window.value, VersionPrefixes(b), 0);
      }
    }
  }

  /** Compatibility: an unrecognised agent passes, Internet Explorer never
      does, any other browser exactly when its major version reaches its
      threshold, so a version that cannot be read fails. */
  lemma CompatibleIff(ua: string)
    ensures var r := DetectBrowser(Some(ua));
            var b := Classify(ua);
            r.isCompatible <==> (b == UnknownBrowser
              || (b != InternetExplorer && exists v :: MatchVersion(ua, VersionPrefixes(b), 0) == Some(v) && AtLeast(v, Threshold(b))))
  {
    var b := Classify(ua);
    if b != UnknownBrowser && b != InternetExplorer && MatchVersion(ua, VersionPrefixes(b), 0).None? {
      assert ParseInt("Unknown") == None;
    }
  }

  /** Any agent mentioning `Edg` is classified as Edge: the Chrome test
      excludes it and the Edge test comes next. */
  lemma EdgWins(ua: string)
    requires Contains(ua, "Edg")
    ensures Classify(ua) == Edge
  {
  }

  /** Safari is only chosen for agents without `Chrome`. */
  lemma SafariHasNoChrome(ua: string)
    requires Classify(ua) == Safari
    ensures !Contains(ua, "Chrome")
  {
  }

  /** A Chromium-based Opera agent (it mentions `Chrome`, `Safari` and
      `OPR`) falls through every earlier test and is classified as Opera. */
  lemma ChromiumOperaIsOpera(ua: string)
    requires Contains(ua, "Chrome") && Contains(ua, "OPR")
    requires !Contains(ua, "Edg") && !Contains(ua, "Firefox") && !Contains(ua, "MSIE") && !Contains(ua, "Trident")
    ensures Classify(ua) == Opera
  {
  }

  /** A legacy Edge agent (`Edge/18…`, no `Edg/`) gets no version and is
      therefore reported incompatible. */
  lemma LegacyEdgeIncompatible(ua: string)
    requires Contains(ua, "Edg") && !Contains(ua, "Edg/")
    ensures DetectBrowser(Some(ua)).version == "Unknown" && !DetectBrowser(Some(ua)).isCompatible
  {
    forall i | 0 <= i <= |ua|
      ensures !OccursAt(ua, "Edg/", i)
    {
    }
    NoPrefixNoVersion(ua, "Edg/", 0);
    assert ParseInt("Unknown") == None;
  }

  // ---------------------------------------------------------------------
  // Feature support
  // ---------------------------------------------------------------------

  datatype Features = Features(flexbox: bool, grid: bool, es6: bool, webp: bool, intersectionObserver: bool,
                               fetch: bool, webAnimations: bool, webShare: bool, serviceWorker: bool)

  /** `Object.entries(features)`, in key order. */
  function Entries(f: Features): seq<(string, bool)> {
    [("flexbox", f.flexbox), ("grid", f.grid), ("es6", f.es6), ("webp", f.webp),
     ("intersectionObserver", f.intersectionObserver), ("fetch", f.fetch),
     ("webAnimations", f.webAnimations), ("webShare", f.webShare), ("serviceWorker", f.serviceWorker)]
  }

  /** `.filter(([key]) => key !== 'webp' && key !== 'allFeaturesSupported').every(([, value]) => value)` */
  function EveryCounted(entries: seq<(string, bool)>): bool {
    if entries == [] then true
    else (!Counted(entries[0].0) || entries[0].1) && EveryCounted(entries[1..])
  }

  predicate Counted(key: string) {
    key != "webp" && key != "allFeaturesSupported"
  }

  lemma {:induction false} EveryCountedAll(entries: seq<(string, bool)>)
    ensures EveryCounted(entries) <==> forall k :: 0 <= k < |entries| && Counted(entries[k].0) ==> entries[k].1
    decreases |entries|
  {
    if entries != [] {
      EveryCountedAll(entries[1..]);
      assert forall k :: 1 <= k < |entries| ==> entries[k] == entries[1..][k - 1];
    }
  }

  datatype FeatureReport = FeatureReport(features: Option<Features>, allFeaturesSupported: bool)

  /** `checkFeatureSupport`; `env` holds the probes when there is a window. */
  function CheckFeatureSupport(env: Option<Features>): (r: FeatureReport)
    ensures env.None? ==> r.allFeaturesSupported
    ensures r.features == env
  {
    match env
    case None => FeatureReport(None, true)
    case Some(f) => FeatureReport(env, EveryCounted(Entries(f)))
  }

  /** The conjunction covers every probe except WebP. */
  lemma AllFeaturesIff(f: Features)
    ensures CheckFeatureSupport(Some(f)).allFeaturesSupported <==>
              f.flexbox && f.grid && f.es6 && f.intersectionObserver && f.fetch
              && f.webAnimations && f.webShare && f.serviceWorker
  {
    var e := Entries(f);
    EveryCountedAll(e);
    assert |"webp"| == 4 && |"allFeaturesSupported"| == 20;
    assert Counted(e[0].0) && Counted(e[1].0) && Counted(e[2].0) && !Counted(e[3].0);
    assert e[4].0 != "webp" by {
      assert e[4].0[0] != 'w';
    }
    assert Counted(e[4].0) && Counted(e[5].0) && Counted(e[6].0) && Counted(e[7].0) && Counted(e[8].0);
  }

  /** WebP support never changes the verdict. */
  lemma WebpIgnored(f: Features)
    ensures CheckFeatureSupport(Some(f)).allFeaturesSupported == CheckFeatureSupport(Some(f.(webp := !f.webp))).allFeaturesSupported
  {
    AllFeaturesIff(f);
    AllFeaturesIff(f.(webp := !f.webp));
  }

  // ---------------------------------------------------------------------
  // The outdated-browser warning
  // ---------------------------------------------------------------------

  const DismissedKey: string := "browser-warning-dismissed"

  /** A child of the element the warning goes into. */
  datatype Node = Warning(browserName: string, browserVersion: string) | Other(id: string)

  predicate IsWarning(n: Node) {
    n.Warning?
  }

  function WarningCount(nodes: seq<Node>): nat {
    if nodes == [] then 0 else (if nodes[0].Warning? then 1 else 0) + WarningCount(nodes[1..])
  }

  /** The page: the target element's children, the session-storage value
      under the dismissal key, whether storage works at all, and whether
      the dismissal click listener is installed. */
  class Page {
    var children: seq<Node>
    var dismissed: Option<string>
    const storageWorks: bool
    var listening: bool

    /** The warning's id is unique in the document: at most one warning. */
    predicate Valid()
      reads this
    {
      WarningCount(children) <= 1
    }

    /** `document.getElementById('browser-compatibility-warning')` */
    predicate HasWarning()
      reads this
    {
      WarningCount(children) > 0
    }

    constructor (children: seq<Node>, dismissed: Option<string>, storageWorks: bool)
      requires WarningCount(children) == 0
      ensures Valid() && !HasWarning()
      ensures this.children == children && this.dismissed == dismissed && this.storageWorks == storageWorks && !listening
    {
      this.children := children;
      this.dismissed := dismissed;
      this.storageWorks := storageWorks;
      listening := false;
    }

    /** `showCompatibilityWarning`: a warning is inserted first, and the
        session value set to `'false'`, only when none is present, the
        browser is incompatible and there is a target. */
    method ShowCompatibilityWarning(hasTarget: bool, info: BrowserInfo)
      requires Valid()
      modifies this`children, this`dismissed
      ensures Valid()
      ensures old(HasWarning()) || info.isCompatible || !hasTarget ==> children == old(children) && dismissed == old(dismissed)
      ensures !old(HasWarning()) && !info.isCompatible && hasTarget ==>
                children == [Warning(info.name, info.version)] + old(children)
                && dismissed == (if storageWorks then Some("false") else old(dismissed))
      ensures HasWarning() <==> old(HasWarning()) || (!info.isCompatible && hasTarget)
    {
      if HasWarning() {
        return;
      }
      if !info.isCompatible && hasTarget {
        children := [Warning(info.name, info.version)] + children;
        if storageWorks {
          dismissed := Some("false");
        }
      }
    }

    /** The session says the warning was dismissed; a storage failure reads
        as not dismissed. */
    predicate WarningDismissed()
      reads this
    {
      storageWorks && dismissed == Some("true")
    }

    /** `initBrowserCompatChecks` without the WebP probe and polyfills. */
    method InitBrowserCompatChecks(window: Option<string>, env: Option<Features>, hasTarget: bool)
      returns (info: BrowserInfo, features: FeatureReport)
      requires Valid()
      modifies this`children, this`dismissed, this`listening
      ensures Valid()
      ensures info == DetectBrowser(window) && features == CheckFeatureSupport(env)
      ensures old(WarningDismissed()) ==> children == old(children) && dismissed == old(dismissed) && listening == old(listening)
      ensures !old(WarningDismissed()) ==> listening
      ensures !old(WarningDismissed()) ==>
                children == (if !old(HasWarning()) && !info.isCompatible && hasTarget
                             then [Warning(info.name, info.version)] + old(children) else old(children))
      ensures !old(WarningDismissed()) ==>
                dismissed == (if !old(HasWarning()) && !info.isCompatible && hasTarget && storageWorks
                              then Some("false") else old(dismissed))
      ensures HasWarning() <==> old(HasWarning()) || (!old(WarningDismissed()) && !info.isCompatible && hasTarget)
    {
      info := DetectBrowser(window);
      features := CheckFeatureSupport(env);
      var warningDismissed := WarningDismissed();
      if !warningDismissed {
        ShowCompatibilityWarning(hasTarget, info);
        listening := true;
      }
    }

    /** A click on the warning's button: the button removes the warning, and
        the listener, if installed, records the dismissal and removes itself. */
    method ClickWarningButton()
      requires Valid() && HasWarning()
      modifies this`children, this`dismissed, this`listening
      ensures Valid() && !HasWarning() && !listening
      ensures children == RemoveWarnings(old(children))
      ensures old(listening) && storageWorks ==> dismissed == Some("true")
      ensures !(old(listening) && storageWorks) ==> dismissed == old(dismissed)
    {
      RemoveWarningsCount(children);
      children := RemoveWarnings(children);
      if listening {
        if storageWorks {
          dismissed := Some("true");
        }
        listening := false;
      }
    }
  }

  function RemoveWarnings(nodes: seq<Node>): (r: seq<Node>)
    ensures |r| <= |nodes|
  {
    if nodes == [] then [] else (if nodes[0].Warning? then [] else [nodes[0]]) + RemoveWarnings(nodes[1..])
  }

  lemma {:induction false} RemoveWarningsCount(nodes: seq<Node>)
    ensures WarningCount(RemoveWarnings(nodes)) == 0
    ensures forall n :: n in RemoveWarnings(nodes) <==> n in nodes && !n.Warning?
    decreases |nodes|
  {
    if nodes != [] {
      RemoveWarningsCount(nodes[1..]);
      var head := if nodes[0].Warning? then [] else [nodes[0]];
      var rest := RemoveWarnings(nodes[1..]);
      assert RemoveWarnings(nodes) == head + rest;
      if head != [] {
        assert (head + rest)[0] == nodes[0] && (head + rest)[1..] == rest;
      } else {
        assert head + rest == rest;
      }
    }
  }

  /** An incompatible browser sees the warning once; after it is dismissed,
      later page loads in the same session (given working storage) show it
      no more. The checks are given the document body as the element to
      warn in. */
  method DismissedStaysDismissed(ua: string, probes: Features, others: seq<Node>) returns (shown: bool, shownAgain: bool)
    requires WarningCount(others) == 0
    requires !DetectBrowser(Some(ua)).isCompatible
    ensures shown && !shownAgain
  {
    var page := new Page(others, None, true);
    var info, features := page.InitBrowserCompatChecks(Some(ua), Some(probes), true);
    shown := page.HasWarning();
    page.ClickWarningButton();
    var nextPage := new Page(others, page.dismissed, true);
    info, features := nextPage.InitBrowserCompatChecks(Some(ua), Some(probes), true);
    shownAgain := nextPage.HasWarning();
  }

  /** The home page (src/app/page.tsx) calls `initBrowserCompatChecks()`
      without an element, so no browser, however outdated, is ever warned;
      the dismissal listener is installed all the same unless the session
      says dismissed. The browser has a window, so `probes` are its feature
      probes. */
  method HomePageNeverWarns(ua: string, probes: Features, others: seq<Node>, dismissed: Option<string>, storageWorks: bool)
    returns (shown: bool, listening: bool)
    requires WarningCount(others) == 0
    ensures !shown
    ensures listening <==> !(storageWorks && dismissed == Some("true"))
  {
    var page := new Page(others, dismissed, storageWorks);
    var info, features := page.InitBrowserCompatChecks(Some(ua), Some(probes), false);
    shown := page.HasWarning();
    listening := page.listening;
  }

  // ---------------------------------------------------------------------
  // Fetch fallback
  // ---------------------------------------------------------------------

  /** `ok` of the fetch fallback's response: the status is in the 2xx class. */
  function FetchOk(status: int): (ok: bool)
    ensures ok <==> status / 100 == 2
  {
    status >= 200 && status < 300
  }
}
