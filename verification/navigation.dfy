/** The navigation audit script: it discovers the app's routes from the
    directory tree, collects links, section ids and navigation texts from
    the source files, and reports expected routes, navigation items and
    sections that are missing, and internal links that lead nowhere. */
module Navigation {
  import opened Util

  const ExpectedRoutes: seq<string> := ["/", "/impressum", "/datenschutz", "/agb", "/widerruf"]
  const ExpectedNavItems: seq<string> := ["Leistungen", "Warum BenFresh", "Kontakt", "Impressum", "Datenschutz", "AGB"]
  const ExpectedSections: seq<string> := ["hero", "services", "why-benfresh", "kontakt"]

  // ---------------------------------------------------------------------
  // Route discovery
  // ---------------------------------------------------------------------

  /** A directory entry under `src/app`. */
  datatype Entry = File(name: string) | Dir(name: string, children: seq<Entry>)

  /** Special Next.js entries the scan passes over. */
  predicate Skipped(name: string) {
    StartsWith(name, "_") || StartsWith(name, ".") || name == "api" || name == "components"
  }

  predicate IsPageName(name: string) {
    name == "page.tsx" || name == "page.jsx" || name == "page.js"
  }

  /** `fs.existsSync(dir/page.*)`: some entry of the directory carries a
      page name (whatever its kind). */
  predicate HasPage(children: seq<Entry>) {
    exists k :: 0 <= k < |children| && IsPageName(children[k].name)
  }

  /** A dynamic segment's directory name: `[` … `]`. */
  predicate IsDynamic(name: string) {
    |name| >= 2 && name[0] == '[' && name[|name| - 1] == ']'
  }

  /** The test of the source, `startsWith('[') && endsWith(']')`, picks
      exactly these names (a one-character name cannot both start with `[`
      and end with `]`). */
  lemma DynamicTest(name: string)
    ensures IsDynamic(name) <==> StartsWith(name, "[") && EndsWith(name, "]")
  {
    if StartsWith(name, "[") && EndsWith(name, "]") {
      assert name[..1][0] == name[0];
      assert name[|name| - 1..][0] == name[|name| - 1];
    }
    if IsDynamic(name) {
      assert name[..1] == "[";
      assert name[|name| - 1..] == "]";
    }
  }

  /** The route segment of a directory: `[x]` becomes `:x`, any other name
      is kept. */
  function RouteSegment(name: string): (seg: string)
    ensures !IsDynamic(name) ==> seg == name
    ensures IsDynamic(name) ==> |seg| == |name| - 1 && seg[0] == ':' && seg[1..] == name[1..|name| - 1]
  {
    if IsDynamic(name) then ":" + name[1..|name| - 1]
    else name
  }

  /** What `scanDirForRoutes` leaves in the route list after visiting the
      entries of one directory in order, starting from `routes`. */
  function ScanFrom(entries: seq<Entry>, parent: string, routes: seq<string>): seq<string>
    decreases entries
  {
    if entries == [] then routes
    else ScanFrom(entries[1..], parent, ScanEntry(entries[0], parent, routes))
  }

  /** One iteration of the scan loop. */
  function ScanEntry(e: Entry, parent: string, routes: seq<string>): seq<string>
    decreases e
  {
    if Skipped(e.name) then routes
    else match e
      case Dir(name, children) =>
        var newRoute := parent + "/" + RouteSegment(name);
        ScanFrom(children, newRoute, if HasPage(children) then routes + [newRoute] else routes)
      case File(name) =>
        if IsPageName(name) && parent != "" && parent !in routes then routes + [parent] else routes
  }

  /** The routes of a tree, in pre-order: one per directory (not skipped,
      nor below a skipped one) that holds a page. */
  function PageRoutes(entries: seq<Entry>, parent: string): seq<string>
    decreases entries
  {
    if entries == [] then []
    else EntryRoutes(entries[0], parent) + PageRoutes(entries[1..], parent)
  }

  function EntryRoutes(e: Entry, parent: string): seq<string>
    decreases e
  {
    if Skipped(e.name) || e.File? then []
    else
      var newRoute := parent + "/" + RouteSegment(e.name);
      (if HasPage(e.children) then [newRoute] else []) + PageRoutes(e.children, newRoute)
  }

  /** The scan is the page-route list appended to what was there: the
      page-file branch never adds anything, because a directory holding a
      page file has already been recorded by its parent (and the app root
      has the empty route, which the branch ignores). */
  lemma {:induction false} ScanIsPageRoutes(entries: seq<Entry>, parent: string, routes: seq<string>)
    requires parent == "" || parent in routes || !HasPage(entries)
    ensures ScanFrom(entries, parent, routes) == routes + PageRoutes(entries, parent)
    decreases entries
  {
    if entries == [] {
      assert routes + [] == routes;
    } else {
      var e := entries[0];
      var next := ScanEntry(e, parent, routes);
      ScanEntryIsPageRoutes(e, parent, routes, HasPage(entries));
      assert parent == "" || parent in next || !HasPage(entries[1..]) by {
        if HasPage(entries[1..]) {
          var k :| 0 <= k < |entries[1..]| && IsPageName(entries[1..][k].name);
          assert IsPageName(entries[k + 1].name);
        }
      }
      ScanIsPageRoutes(entries[1..], parent, next);
      assert routes + EntryRoutes(e, parent) + PageRoutes(entries[1..], parent)
          == routes + (EntryRoutes(e, parent) + PageRoutes(entries[1..], parent));
    }
  }

  lemma {:induction false} ScanEntryIsPageRoutes(e: Entry, parent: string, routes: seq<string>, siblingsHavePage: bool)
    requires IsPageName(e.name) ==> siblingsHavePage
    requires parent == "" || parent in routes || !siblingsHavePage
    ensures ScanEntry(e, parent, routes) == routes + EntryRoutes(e, parent)
    ensures parent in routes ==> parent in ScanEntry(e, parent, routes)
    decreases e
  {
    if Skipped(e.name) {
      assert routes + [] == routes;
    } else {
      match e
      case File(name) =>
        assert routes + [] == routes;
      case Dir(name, children) =>
        var newRoute := parent + "/" + RouteSegment(name);
        var start := if HasPage(children) then routes + [newRoute] else routes;
        ScanIsPageRoutes(children, newRoute, start);
        assert start + PageRoutes(children, newRoute)
            == routes + ((if HasPage(children) then [newRoute] else []) + PageRoutes(children, newRoute));
    }
  }

  /** `scanDirForRoutes`: the loop over a directory's entries, descending
      into every directory that is not skipped. */
  method ScanDirForRoutes(entries: seq<Entry>, parentRoute: string, routes: seq<string>) returns (result: seq<string>)
    ensures result == ScanFrom(entries, parentRoute, routes)
    decreases entries
  {
    result := routes;
    var i := 0;
    while i < |entries|
      invariant 0 <= i <= |entries|
      invariant ScanFrom(entries[i..], parentRoute, result) == ScanFrom(entries, parentRoute, routes)
    {
      var entry := entries[i];
      assert entries[i..][1..] == entries[i + 1..];
      if !Skipped(entry.name) {
        match entry
        case Dir(name, children) =>
          var newRoute := parentRoute + "/" + RouteSegment(name);
          if HasPage(children) {
            result := result + [newRoute];
          }
          result := ScanDirForRoutes(children, newRoute, result);
        case File(name) =>
          if IsPageName(name) && parentRoute != "" && parentRoute !in result {
            result := result + [parentRoute];
          }
      }
      i := i + 1;
    }
    assert entries[|entries|..] == [];
  }

  /** `extractRoutes`: `/` first, then the routes found under the app
      directory (`None` when it does not exist). */
  method ExtractRoutes(app: Option<seq<Entry>>) returns (routes: seq<string>)
    ensures app.None? ==> routes == ["/"]
    ensures app.Some? ==> routes == ["/"] + PageRoutes(app.value, "")
  {
    routes := ["/"];
    if app.Some? {
      routes := ScanDirForRoutes(app.value, "", routes);
      ScanIsPageRoutes(app.value, "", ["/"]);
    }
  }

  predicate AllRooted(routes: seq<string>) {
    forall k :: 0 <= k < |routes| ==> StartsWith(routes[k], "/")
  }

  /** Every discovered route begins with `/`: routes grow from the parent
      route by `/` and a segment. */
  lemma {:induction false} PageRoutesRooted(entries: seq<Entry>, parent: string)
    requires parent == "" || StartsWith(parent, "/")
    ensures AllRooted(PageRoutes(entries, parent))
    decreases entries
  {
    if entries != [] {
      var e := entries[0];
      PageRoutesRooted(entries[1..], parent);
      EntryRoutesRooted(e, parent);
      AllRootedAppend(EntryRoutes(e, parent), PageRoutes(entries[1..], parent));
    }
  }

  lemma {:induction false} EntryRoutesRooted(e: Entry, parent: string)
    requires parent == "" || StartsWith(parent, "/")
    ensures AllRooted(EntryRoutes(e, parent))
    decreases e
  {
    if !(Skipped(e.name) || e.File?) {
      var newRoute := parent + "/" + RouteSegment(e.name);
      assert StartsWith(newRoute, "/") by {
        if parent == "" {
          assert newRoute[..1] == "/";
        } else {
          assert newRoute[..1] == parent[..1];
        }
      }
      PageRoutesRooted(e.children, newRoute);
      AllRootedAppend(if HasPage(e.children) then [newRoute] else [], PageRoutes(e.children, newRoute));
    }
  }

  lemma AllRootedAppend(a: seq<string>, b: seq<string>)
    requires AllRooted(a) && AllRooted(b)
    ensures AllRooted(a + b)
  {
    forall k | 0 <= k < |a + b|
      ensures StartsWith((a + b)[k], "/")
    {
      if k >= |a| {
        assert (a + b)[k] == b[k - |a|];
      }
    }
  }

  /** A skipped directory contributes no route, whatever it holds. */
  lemma SkippedContributesNothing(e: Entry, parent: string)
    requires Skipped(e.name)
    ensures EntryRoutes(e, parent) == []
  {
  }

  // ---------------------------------------------------------------------
  // Link extraction
  // ---------------------------------------------------------------------

  /** A scanned source file with what its regular expressions capture:
      `href="…"` values, `id="…"` values, and the texts between an opening
      and a closing tag. */
  datatype SourceFile = SourceFile(path: string, content: string, hrefs: seq<string>, ids: seq<string>, tagTexts: seq<string>)

  /** The four `Set`s of `extractLinks`, in insertion order. */
  datatype Links = Links(allLinks: seq<string>, internalLinks: seq<string>, sectionLinks: seq<string>, navItems: seq<string>)

  /** `set.add(x)` on an insertion-ordered set. */
  function Add(s: seq<string>, x: string): seq<string> {
    if x in s then s else s + [x]
  }

  /** Adding each of `xs` in turn. */
  function AddAll(s: seq<string>, xs: seq<string>): seq<string>
    decreases |xs|
  {
    if xs == [] then s else AddAll(Add(s, xs[0]), xs[1..])
  }

  predicate NoDuplicates(s: seq<string>) {
    forall i, j :: 0 <= i < j < |s| ==> s[i] != s[j]
  }

  /** An insertion-ordered set holds each added value exactly once. */
  lemma {:induction false} AddAllSound(s: seq<string>, xs: seq<string>)
    requires NoDuplicates(s)
    ensures NoDuplicates(AddAll(s, xs))
    ensures forall x :: x in AddAll(s, xs) <==> x in s || x in xs
    decreases |xs|
  {
    if xs != [] {
      var s1 := Add(s, xs[0]);
      AddAllSound(s1, xs[1..]);
      assert forall x :: x in xs <==> x == xs[0] || x in xs[1..];
    }
  }

  lemma {:induction false} AddAllAppend(s: seq<string>, xs: seq<string>, ys: seq<string>)
    ensures AddAll(s, xs + ys) == AddAll(AddAll(s, xs), ys)
    decreases |xs|
  {
    if xs == [] {
      assert xs + ys == ys;
    } else {
      assert (xs + ys)[1..] == xs[1..] + ys;
      AddAllAppend(Add(s, xs[0]), xs[1..], ys);
    }
  }

  function TrimAll(xs: seq<string>): (r: seq<string>)
    ensures |r| == |xs| && forall k :: 0 <= k < |xs| ==> r[k] == Trim(xs[k])
  {
    if xs == [] then [] else [Trim(xs[0])] + TrimAll(xs[1..])
  }

  /** The hrefs that start with `/`. */
  function Internal(hrefs: seq<string>): (r: seq<string>)
    ensures forall x :: x in r <==> x in hrefs && StartsWith(x, "/")
  {
    if hrefs == [] then []
    else (if StartsWith(hrefs[0], "/") then [hrefs[0]] else []) + Internal(hrefs[1..])
  }

  /** The section names the hrefs point to: `#x` gives `x`. */
  function Anchors(hrefs: seq<string>): (r: seq<string>)
    ensures forall k :: 0 <= k < |hrefs| && StartsWith(hrefs[k], "#") ==> hrefs[k][1..] in r
    ensures forall x :: x in r ==> "#" + x in hrefs
  {
    if hrefs == [] then []
    else
      var rest := Anchors(hrefs[1..]);
      assert forall x :: x in rest ==> "#" + x in hrefs;
      if StartsWith(hrefs[0], "#") then
        assert "#" + hrefs[0][1..] == hrefs[0];
        [hrefs[0][1..]] + rest
      else rest
  }

  /** Trimmed id values without `{` or `$`. */
  function StaticIds(ids: seq<string>): (r: seq<string>)
    ensures forall x :: x in r ==> !HasChar(x, '{') && !HasChar(x, '$')
    ensures forall k :: 0 <= k < |ids| && !HasChar(Trim(ids[k]), '{') && !HasChar(Trim(ids[k]), '$') ==> Trim(ids[k]) in r
  {
    if ids == [] then []
    else
      var id := Trim(ids[0]);
      var rest := StaticIds(ids[1..]);
      assert forall k :: 1 <= k < |ids| ==> ids[k] == ids[1..][k - 1];
      (if !HasChar(id, '{') && !HasChar(id, '$') then [id] else []) + rest
  }

  /** Whether the file is read for navigation texts. */
  predicate IsNavFile(f: SourceFile) {
    Contains(f.content, "navigation") || Contains(f.content, "navbar") || Contains(f.content, "menu") ||
    Contains(f.path, "header") || Contains(f.path, "nav") || Contains(f.path, "footer")
  }

  /** Trimmed tag texts that are non-empty and hold no `{`. */
  function NavTexts(texts: seq<string>): (r: seq<string>)
    ensures forall x :: x in r ==> x != "" && !HasChar(x, '{')
  {
    if texts == [] then []
    else
      var t := Trim(texts[0]);
      (if t != "" && !HasChar(t, '{') then [t] else []) + NavTexts(texts[1..])
  }

  /** The four sets of `extractLinks`. */
  datatype Part = AllPart | InternalPart | SectionPart | NavPart

  /** What one file adds to a set, in the order it adds them. */
  function FilePart(f: SourceFile, p: Part): seq<string> {
    match p
    case AllPart => TrimAll(f.hrefs)
    case InternalPart => Internal(TrimAll(f.hrefs))
    case SectionPart => Anchors(TrimAll(f.hrefs)) + StaticIds(f.ids)
    case NavPart => if IsNavFile(f) then NavTexts(f.tagTexts) else []
  }

  /** Everything the files add to a set, duplicates included. */
  function Gathered(files: seq<SourceFile>, p: Part): seq<string>
    decreases |files|
  {
    if files == [] then [] else Gathered(files[..|files| - 1], p) + FilePart(files[|files| - 1], p)
  }

  /** The set a run builds: the gathered values, first occurrences kept. */
  function Collected(files: seq<SourceFile>, p: Part): seq<string> {
    AddAll([], Gathered(files, p))
  }

  /** Adds each element of `xs` to the ordered set `s`. */
  method AddEach(s: seq<string>, xs: seq<string>) returns (r: seq<string>)
    ensures r == AddAll(s, xs)
  {
    r := s;
    for k := 0 to |xs|
      invariant AddAll(s, xs) == AddAll(r, xs[k..])
    {
      assert xs[k..][1..] == xs[k + 1..];
      if xs[k] !in r {
        r := r + [xs[k]];
      }
    }
  }

  lemma CollectedStep(files: seq<SourceFile>, i: nat, p: Part)
    requires i < |files|
    ensures Collected(files[..i + 1], p) == AddAll(Collected(files[..i], p), FilePart(files[i], p))
  {
    assert files[..i + 1][..i] == files[..i];
    AddAllAppend([], Gathered(files[..i], p), FilePart(files[i], p));
  }

  /** `extractLinks`: read every file once, adding its navigation texts,
      hrefs (each to the full set and, by its first character, to the
      internal or the section set) and static ids. */
  method ExtractLinks(files: seq<SourceFile>) returns (links: Links)
    ensures links == Links(Collected(files, AllPart), Collected(files, InternalPart),
                           Collected(files, SectionPart), Collected(files, NavPart))
  {
    links := Links([], [], [], []);
    for i := 0 to |files|
      invariant links == Links(Collected(files[..i], AllPart), Collected(files[..i], InternalPart),
                               Collected(files[..i], SectionPart), Collected(files[..i], NavPart))
    {
      var f := files[i];
      var navItems := AddEach(links.navItems, FilePart(f, NavPart));
      var allLinks := AddEach(links.allLinks, FilePart(f, AllPart));
      var internal := AddEach(links.internalLinks, FilePart(f, InternalPart));
      var sections := AddEach(links.sectionLinks, FilePart(f, SectionPart));
      CollectedStep(files, i, AllPart);
      CollectedStep(files, i, InternalPart);
      CollectedStep(files, i, SectionPart);
      CollectedStep(files, i, NavPart);
      links := Links(allLinks, internal, sections, navItems);
    }
    assert files[..|files|] == files;
  }

  /** Each set holds no duplicates and exactly the values the files add. */
  lemma CollectedSound(files: seq<SourceFile>, p: Part)
    ensures NoDuplicates(Collected(files, p))
    ensures forall x :: x in Collected(files, p) <==> x in Gathered(files, p)
  {
    AddAllSound([], Gathered(files, p));
  }

  /** A link is internal exactly when it is one of the links and starts
      with `/`. */
  lemma {:induction false} InternalClassified(files: seq<SourceFile>)
    ensures forall x :: x in Gathered(files, InternalPart) <==> x in Gathered(files, AllPart) && StartsWith(x, "/")
    decreases |files|
  {
    if files != [] {
      InternalClassified(files[..|files| - 1]);
    }
  }

  /** A value one file adds is in the gathered list. */
  lemma {:induction false} GatheredHas(files: seq<SourceFile>, i: nat, p: Part, x: string)
    requires i < |files| && x in FilePart(files[i], p)
    ensures x in Gathered(files, p)
    decreases |files|
  {
    if i < |files| - 1 {
      GatheredHas(files[..|files| - 1], i, p, x);
    }
  }

  /** The classification of one href: it is always a link, it is internal
      iff it starts with `/`, and a `#x` href makes `x` a section name. */
  lemma HrefClassified(files: seq<SourceFile>, i: nat, k: nat)
    requires i < |files| && k < |files[i].hrefs|
    ensures Trim(files[i].hrefs[k]) in Collected(files, AllPart)
    ensures Trim(files[i].hrefs[k]) in Collected(files, InternalPart) <==> StartsWith(Trim(files[i].hrefs[k]), "/")
    ensures StartsWith(Trim(files[i].hrefs[k]), "#") ==> Trim(files[i].hrefs[k])[1..] in Collected(files, SectionPart)
  {
    var h := Trim(files[i].hrefs[k]);
    assert h == FilePart(files[i], AllPart)[k];
    GatheredHas(files, i, AllPart, h);
    CollectedSound(files, AllPart);
    CollectedSound(files, InternalPart);
    InternalClassified(files);
    if StartsWith(h, "#") {
      assert h[1..] in FilePart(files[i], SectionPart);
      GatheredHas(files, i, SectionPart, h[1..]);
      CollectedSound(files, SectionPart);
    }
  }

  /** An id holding `{` or `$` never becomes a section name through the
      id rule: every section name is the target of some `#` href or a
      static id. */
  lemma {:induction false} SectionsFromAnchorsOrStaticIds(files: seq<SourceFile>, x: string)
    requires x in Gathered(files, SectionPart)
    ensures exists i :: 0 <= i < |files| && ("#" + x in TrimAll(files[i].hrefs) || x in StaticIds(files[i].ids))
    decreases |files|
  {
    var last := |files| - 1;
    if x in Gathered(files[..last], SectionPart) {
      SectionsFromAnchorsOrStaticIds(files[..last], x);
      var i :| 0 <= i < last && ("#" + x in TrimAll(files[..last][i].hrefs) || x in StaticIds(files[..last][i].ids));
      assert files[..last][i] == files[i];
    } else {
      assert x in FilePart(files[last], SectionPart);
    }
  }

  // ---------------------------------------------------------------------
  // The checks
  // ---------------------------------------------------------------------

  /** The three "is it there?" rules of the script. */
  datatype Lookup = InRoutes(found: seq<string>) | InNavItems(navItems: seq<string>) | InSections(sectionLinks: seq<string>)

  /** A navigation text matches an expected item when either contains the
      other or they are equal ignoring case. */
  predicate NavMatches(nav: string, item: string) {
    Contains(nav, item) || Contains(item, nav) || Lower(nav) == Lower(item)
  }

  /** A section link matches an expected section when they are equal or
      either contains the other. */
  predicate SectionMatches(s: string, section: string) {
    s == section || Contains(s, section) || Contains(section, s)
  }

  predicate Present(l: Lookup, x: string) {
    match l
    case InRoutes(found) => x in found
    case InNavItems(navItems) => exists k :: 0 <= k < |navItems| && NavMatches(navItems[k], x)
    case InSections(sectionLinks) => exists k :: 0 <= k < |sectionLinks| && SectionMatches(sectionLinks[k], x)
  }

  /** The expected values the lookup does not find, in configuration order. */
  function Missing(l: Lookup, expected: seq<string>): (r: seq<string>)
    ensures |r| <= |expected|
  {
    if expected == [] then []
    else (if Present(l, expected[0]) then [] else [expected[0]]) + Missing(l, expected[1..])
  }

  /** A value is reported missing exactly when it is expected and the
      lookup does not find it. */
  lemma {:induction false} MissingMembers(l: Lookup, expected: seq<string>)
    ensures forall x :: x in Missing(l, expected) <==> x in expected && !Present(l, x)
    decreases |expected|
  {
    if expected != [] {
      MissingMembers(l, expected[1..]);
      assert forall x :: x in expected <==> x == expected[0] || x in expected[1..];
    }
  }

  lemma {:induction false} MissingSnoc(l: Lookup, expected: seq<string>, x: string)
    ensures Missing(l, expected + [x]) == Missing(l, expected) + (if Present(l, x) then [] else [x])
    decreases |expected|
  {
    if expected == [] {
      assert [x][1..] == [];
    } else {
      assert (expected + [x])[1..] == expected[1..] + [x];
      MissingSnoc(l, expected[1..], x);
    }
  }

  /** The loop shared by `checkMissingRoutes`, `checkNavItems` and
      `checkSectionLinks`: walk the expected values in order and keep those
      the lookup does not find. */
  method CollectMissing(l: Lookup, expected: seq<string>) returns (missing: seq<string>)
    ensures missing == Missing(l, expected)
  {
    missing := [];
    for i := 0 to |expected|
      invariant missing == Missing(l, expected[..i])
    {
      var x := expected[i];
      MissingSnoc(l, expected[..i], x);
      assert expected[..i + 1] == expected[..i] + [x];
      if !Present(l, x) {
        missing := missing + [x];
      }
    }
    assert expected[..|expected|] == expected;
  }

  /** `checkMissingRoutes`: the expected routes not among the found ones. */
  method CheckMissingRoutes(foundRoutes: seq<string>) returns (missingRoutes: seq<string>)
    ensures missingRoutes == Missing(InRoutes(foundRoutes), ExpectedRoutes)
  {
    missingRoutes := CollectMissing(InRoutes(foundRoutes), ExpectedRoutes);
  }

  /** `checkNavItems`: the expected items no navigation text matches. */
  method CheckNavItems(navItems: seq<string>) returns (missingItems: seq<string>)
    ensures missingItems == Missing(InNavItems(navItems), ExpectedNavItems)
  {
    missingItems := CollectMissing(InNavItems(navItems), ExpectedNavItems);
  }

  /** `checkSectionLinks`: the expected sections no section link matches. */
  method CheckSectionLinks(sectionLinks: seq<string>) returns (missingSections: seq<string>)
    ensures missingSections == Missing(InSections(sectionLinks), ExpectedSections)
  {
    missingSections := CollectMissing(InSections(sectionLinks), ExpectedSections);
  }

  /** A single empty section name (from an `href="#"` placeholder) is
      contained in every section name, so it makes every expected section
      count as linked. */
  lemma EmptySectionLinkMatchesAll(sectionLinks: seq<string>)
    requires "" in sectionLinks
    ensures Missing(InSections(sectionLinks), ExpectedSections) == []
  {
    var k :| 0 <= k < |sectionLinks| && sectionLinks[k] == "";
    forall section | section in ExpectedSections
      ensures Present(InSections(sectionLinks), section)
    {
      assert OccursAt(section, "", 0);
      assert SectionMatches(sectionLinks[k], section);
    }
    MissingMembers(InSections(sectionLinks), ExpectedSections);
    EmptyIffNoMember(Missing(InSections(sectionLinks), ExpectedSections));
  }

  /** Every expected navigation item names itself: a navigation text equal
      to the item is a match, as is any text containing it. */
  lemma NavItemFoundByItself(navItems: seq<string>, item: string)
    requires item in navItems
    ensures Present(InNavItems(navItems), item)
  {
    var k :| 0 <= k < |navItems| && navItems[k] == item;
    ContainsSelf(item);
    assert NavMatches(navItems[k], item);
  }

  // ---------------------------------------------------------------------
  // Orphaned links and the summary
  // ---------------------------------------------------------------------

  predicate IsQuestionMark(c: char) {
    c == '?'
  }

  /** `link.split('?')[0]`: the link up to its first `?`. */
  function CleanLink(link: string): (r: string)
    ensures |r| <= |link| && r == link[..|r|]
    ensures forall j :: 0 <= j < |r| ==> r[j] != '?'
    ensures |r| < |link| ==> link[|r|] == '?'
  {
    FindFirstSound(link, IsQuestionMark);
    match FindFirst(link, IsQuestionMark)
    case None => link
    case Some(i) => link[..i]
  }

  /** Some route is the cleaned link, or the cleaned link with a trailing `/`. */
  predicate RouteExists(routes: seq<string>, link: string) {
    CleanLink(link) in routes || CleanLink(link) + "/" in routes
  }

  /** The internal links whose page is not among the routes. */
  function Orphaned(internalLinks: seq<string>, routes: seq<string>): (r: seq<string>)
    ensures forall x :: x in r <==> x in internalLinks && !RouteExists(routes, x)
  {
    if internalLinks == [] then []
    else (if RouteExists(routes, internalLinks[0]) then [] else [internalLinks[0]]) + Orphaned(internalLinks[1..], routes)
  }

  /** A query string never makes a link an orphan: `/p?x` is an orphan
      exactly when `/p` is. */
  lemma QueryIgnored(routes: seq<string>, path: string, query: string)
    requires forall j :: 0 <= j < |path| ==> path[j] != '?'
    ensures RouteExists(routes, path + "?" + query) <==> RouteExists(routes, path)
  {
    var link := path + "?" + query;
    assert link[|path|] == '?';
    FindFirstAt(link, IsQuestionMark, |path|);
    assert link[..|path|] == path;
    NoQuestionMark(path);
  }

  lemma NoQuestionMark(path: string)
    requires forall j :: 0 <= j < |path| ==> path[j] != '?'
    ensures CleanLink(path) == path
  {
  }

  /** The four problem lists of a run. */
  datatype Report = Report(missingRoutes: seq<string>, missingNavItems: seq<string>, missingSections: seq<string>, orphanedLinks: seq<string>)

  /** The run as `main` performs it, on the app tree and the scanned files. */
  method Audit(app: Option<seq<Entry>>, files: seq<SourceFile>) returns (report: Report, routes: seq<string>, links: Links)
    ensures routes == (if app.None? then ["/"] else ["/"] + PageRoutes(app.value, ""))
    ensures links == Links(Collected(files, AllPart), Collected(files, InternalPart),
                           Collected(files, SectionPart), Collected(files, NavPart))
    ensures report == Report(Missing(InRoutes(routes), ExpectedRoutes), Missing(InNavItems(links.navItems), ExpectedNavItems),
                             Missing(InSections(links.sectionLinks), ExpectedSections), Orphaned(links.internalLinks, routes))
  {
    routes := ExtractRoutes(app);
    var missingRoutes := CheckMissingRoutes(routes);
    links := ExtractLinks(files);
    var missingNavItems := CheckNavItems(links.navItems);
    var missingSections := CheckSectionLinks(links.sectionLinks);
    var orphanedLinks := Orphaned(links.internalLinks, routes);
    report := Report(missingRoutes, missingNavItems, missingSections, orphanedLinks);
  }

  /** The summary line's condition. */
  predicate AllChecksPass(r: Report) {
    |r.missingRoutes| == 0 && |r.missingNavItems| == 0 && |r.missingSections| == 0 && |r.orphanedLinks| == 0
  }

  /** The run passes exactly when every expected route, navigation item and
      section is found and every internal link leads to a route. */
  lemma AllChecksPassIff(routes: seq<string>, links: Links, r: Report)
    requires r == Report(Missing(InRoutes(routes), ExpectedRoutes), Missing(InNavItems(links.navItems), ExpectedNavItems),
                         Missing(InSections(links.sectionLinks), ExpectedSections), Orphaned(links.internalLinks, routes))
    ensures AllChecksPass(r) <==>
              (forall x :: x in ExpectedRoutes ==> x in routes) &&
              (forall x :: x in ExpectedNavItems ==> Present(InNavItems(links.navItems), x)) &&
              (forall x :: x in ExpectedSections ==> Present(InSections(links.sectionLinks), x)) &&
              (forall x :: x in links.internalLinks ==> RouteExists(routes, x))
  {
    MissingMembers(InRoutes(routes), ExpectedRoutes);
    MissingMembers(InNavItems(links.navItems), ExpectedNavItems);
    MissingMembers(InSections(links.sectionLinks), ExpectedSections);
    EmptyIffNoMember(r.missingRoutes);
    EmptyIffNoMember(r.missingNavItems);
    EmptyIffNoMember(r.missingSections);
    EmptyIffNoMember(r.orphanedLinks);
  }

  lemma EmptyIffNoMember(s: seq<string>)
    ensures |s| == 0 <==> forall x :: x !in s
  {
    if |s| != 0 {
      assert s[0] in s;
    }
  }
}
