/** The in-page accessibility checker: five rule checks over the elements
    of the document (heading order, image alt text, suspicious contrast
    classes, keyboard access of clickable elements, form labels), their
    concatenation, and the grouping of the result by severity. Each DOM query
    is a sequence of abstract elements; no document means no issues. */
module Accessibility {
  import opened Util

  datatype Severity = Critical | High | Medium | Low

  datatype Issue = Issue(element: string, description: string, wcagCriteria: string, severity: Severity, suggestion: string)

  type HeadingLevel = l: int | 1 <= l <= 6 witness 1

  /** An `h1`–`h6` element. */
  datatype Heading = Heading(level: HeadingLevel, outerHTML: string)

  /** An `img` element and its `alt` attribute (`None` when absent). */
  datatype Image = Image(alt: Option<string>, outerHTML: string)

  /** A text element and its class tokens. */
  datatype TextElement = TextElement(classList: seq<string>, outerHTML: string)

  /** A clickable `div` or `span` and the attributes the keyboard check reads. */
  datatype Clickable = Clickable(hasTabIndex: bool, hasKeyDown: bool, hasKeyPress: bool, outerHTML: string)

  /** An `input`, `textarea` or `select` with the attributes the label check
      reads; `insideLabel` is whether it has an enclosing `label`. */
  datatype FormField = FormField(typeAttr: Option<string>, id: Option<string>, insideLabel: bool,
                                 ariaLabel: Option<string>, ariaLabelledBy: Option<string>, outerHTML: string)

  /** The results of the document queries, in document order, and the `for`
      attributes of the page's labels. */
  datatype Document = Document(headings: seq<Heading>, images: seq<Image>, textElements: seq<TextElement>,
                               clickables: seq<Clickable>, formFields: seq<FormField>, labelFors: seq<string>)

  // ---------------------------------------------------------------------
  // Heading hierarchy
  // ---------------------------------------------------------------------

  function Digit(n: int): string
    requires 0 <= n <= 9
  {
    [('0' as int + n) as char]
  }

  // The texts of the issues: message, WCAG success criterion, and fix.
  const SkippedHeadingMessage: string := "Skipped heading level: "
  const InfoAndRelationships: string := "1.3.1 Info and Relationships (Level A)"
  const AddMissingLevelsFix: string := ", or add missing heading levels."
  const MissingAltMessage: string := "Image missing alt attribute"
  const NonTextContent: string := "1.1.1 Non-text Content (Level A)"
  const MissingAltFix: string := "Add descriptive alt text to the image, or empty alt if decorative."
  const EmptyAltMessage: string := "Image has empty alt text (may be ok if decorative)"
  const EmptyAltFix: string := "Confirm this image is decorative. If not, add descriptive alt text."
  const ContrastMessage: string := "Potentially insufficient color contrast with class: "
  const ContrastMinimum: string := "1.4.3 Contrast (Minimum) (Level AA)"
  const ContrastFix: string := "Ensure text has a contrast ratio of at least 4.5:1 against its background."
  const KeyboardMessage: string := "Interactive element not fully keyboard accessible"
  const KeyboardCriterion: string := "2.1.1 Keyboard (Level A)"
  const KeyboardFix: string := "Add tabindex=\"0\" and a keydown event handler to ensure keyboard accessibility."
  const LabelMessage: string := "Form field missing associated label"
  const LabelsOrInstructions: string := "3.3.2 Labels or Instructions (Level A)"
  const LabelFix: string := "Add a label with a matching 'for' attribute, or an aria-label attribute."

  /** `heading.tagName`, upper case as the DOM reports it. */
  function TagName(level: HeadingLevel): string {
    "H" + Digit(level)
  }

  /** The issue for a heading that comes after one `prevLevel` deep. */
  function SkipIssue(h: Heading, prevLevel: HeadingLevel): (issue: Issue)
    ensures issue.severity == Medium && issue.element == h.outerHTML
  {
    Issue(h.outerHTML,
          SkippedHeadingMessage + TagName(h.level) + " after h" + Digit(prevLevel),
          InfoAndRelationships,
          Medium,
          "Consider using h" + Digit(prevLevel + 1)
            + " instead of " + TagName(h.level) + AddMissingLevelsFix)
  }

  /** Heading `k` jumps more than one level below the heading before it. */
  predicate Skips(hs: seq<Heading>, k: int)
    requires 0 <= k < |hs|
  {
    k > 0 && hs[k].level > hs[k - 1].level + 1
  }

  /** The issues of the first `n` headings, one per skipping heading, by
      position: the reference the `prevLevel` loop is checked against. */
  function SkipIssues(hs: seq<Heading>, n: nat): seq<Issue>
    requires n <= |hs|
  {
    if n == 0 then []
    else SkipIssues(hs, n - 1) + (if Skips(hs, n - 1) then [SkipIssue(hs[n - 1], hs[n - 2].level)] else [])
  }

  /** `checkHeadingHierarchy`: walk the headings carrying the previous level
      (0 before the first heading). */
  method CheckHeadingHierarchy(doc: Option<Document>) returns (issues: seq<Issue>)
    ensures doc.None? ==> issues == []
    ensures doc.Some? ==> issues == SkipIssues(doc.value.headings, |doc.value.headings|)
  {
    issues := [];
    if doc.None? {
      return;
    }
    var headings := doc.value.headings;
    var prevLevel: int := 0;
    for i := 0 to |headings|
      invariant issues == SkipIssues(headings, i)
      invariant prevLevel == if i == 0 then 0 else headings[i - 1].level
    {
      var heading := headings[i];
      var level := heading.level;
      if prevLevel > 0 && level > prevLevel + 1 {
        issues := issues + [SkipIssue(heading, prevLevel)];
      }
      prevLevel := level;
    }
  }

  /** At most one issue per heading, and none for the first. */
  lemma {:induction false} SkipIssuesBound(hs: seq<Heading>, n: nat)
    requires n <= |hs|
    ensures |SkipIssues(hs, n)| <= (if n == 0 then 0 else n - 1)
  {
    if n > 0 {
      SkipIssuesBound(hs, n - 1);
    }
  }

  /** No issue at all exactly when no heading goes more than one level
      deeper than its predecessor: the first heading, same-level headings,
      one-level steps and any upward jump are never flagged. */
  lemma {:induction false} NoSkipIssuesIff(hs: seq<Heading>, n: nat)
    requires n <= |hs|
    ensures SkipIssues(hs, n) == [] <==> forall k :: 0 < k < n ==> hs[k].level <= hs[k - 1].level + 1
  {
    if n > 0 {
      NoSkipIssuesIff(hs, n - 1);
    }
  }

  /** An issue at position `k` names that heading and suggests the level
      right below the previous heading. */
  lemma {:induction false} SkipIssueAt(hs: seq<Heading>, n: nat, k: nat)
    requires k < n <= |hs| && Skips(hs, k)
    ensures SkipIssue(hs[k], hs[k - 1].level) in SkipIssues(hs, n)
  {
    if k < n - 1 {
      SkipIssueAt(hs, n - 1, k);
    }
  }

  // ---------------------------------------------------------------------
  // Image alt text
  // ---------------------------------------------------------------------

  /** A missing `alt` is critical, an empty one low, any other none. */
  function AltIssues(img: Image): (r: seq<Issue>)
    ensures |r| <= 1
    ensures |r| == 1 <==> img.alt.None? || img.alt == Some("")
    ensures |r| == 1 ==> r[0].severity == (if img.alt.None? then Critical else Low)
  {
    match img.alt
    case None =>
      [Issue(img.outerHTML, MissingAltMessage, NonTextContent, Critical,
             MissingAltFix)]
    case Some(alt) =>
      if alt == "" then
        [Issue(img.outerHTML, EmptyAltMessage, NonTextContent, Low,
               EmptyAltFix)]
      else []
  }

  function AllAltIssues(imgs: seq<Image>): seq<Issue> {
    if imgs == [] then [] else AllAltIssues(imgs[..|imgs| - 1]) + AltIssues(imgs[|imgs| - 1])
  }

  /** `checkImagesAltText` */
  method CheckImagesAltText(doc: Option<Document>) returns (issues: seq<Issue>)
    ensures doc.None? ==> issues == []
    ensures doc.Some? ==> issues == AllAltIssues(doc.value.images)
  {
    issues := [];
    if doc.None? {
      return;
    }
    var images := doc.value.images;
    for i := 0 to |images|
      invariant issues == AllAltIssues(images[..i])
    {
      AltSnoc(images, i);
      issues := issues + AltIssues(images[i]);
    }
    assert images[..|images|] == images;
  }

  lemma AltSnoc(imgs: seq<Image>, i: nat)
    requires i < |imgs|
    ensures AllAltIssues(imgs[..i + 1]) == AllAltIssues(imgs[..i]) + AltIssues(imgs[i])
  {
    assert imgs[..i + 1][..i] == imgs[..i];
  }

  /** The images without alt text are exactly the critical alt issues. */
  lemma {:induction false} AltCriticalIff(imgs: seq<Image>)
    ensures |BySeverity(AllAltIssues(imgs), Critical)| == CountMissingAlt(imgs)
    ensures |AllAltIssues(imgs)| == CountMissingAlt(imgs) + CountEmptyAlt(imgs)
    decreases |imgs|
  {
    if imgs != [] {
      var init := imgs[..|imgs| - 1];
      AltCriticalIff(init);
      BySeverityAppend(AllAltIssues(init), AltIssues(imgs[|imgs| - 1]), Critical);
      AltSeverity(imgs[|imgs| - 1], Critical);
    }
  }

  /** The alt issue of one image, if any, is of the given severity exactly
      when that severity is the one its alt text calls for. */
  lemma AltSeverity(img: Image, s: Severity)
    ensures BySeverity(AltIssues(img), s) ==
              if (img.alt.None? && s == Critical) || (img.alt == Some("") && s == Low) then AltIssues(img) else []
  {
    var r := AltIssues(img);
    if |r| == 1 {
      assert r == [r[0]];
      BySeverityOne(r[0], s);
    }
  }

  lemma BySeverityOne(x: Issue, s: Severity)
    ensures BySeverity([x], s) == if x.severity == s then [x] else []
  {
    assert [x][1..] == [];
  }

  function CountMissingAlt(imgs: seq<Image>): nat {
    if imgs == [] then 0 else CountMissingAlt(imgs[..|imgs| - 1]) + (if imgs[|imgs| - 1].alt.None? then 1 else 0)
  }

  function CountEmptyAlt(imgs: seq<Image>): nat {
    if imgs == [] then 0 else CountEmptyAlt(imgs[..|imgs| - 1]) + (if imgs[|imgs| - 1].alt == Some("") then 1 else 0)
  }

  // ---------------------------------------------------------------------
  // Colour contrast
  // ---------------------------------------------------------------------

  const SuspiciousClasses: seq<string> := [
    "text-gray-400", "text-gray-300", "text-gray-200",
    "text-white bg-gray-100", "text-white bg-gray-200",
    "text-gray-700 bg-gray-600"]

  function ContrastIssue(el: TextElement, className: string): Issue {
    Issue(el.outerHTML, ContrastMessage + className,
          ContrastMinimum, High,
          ContrastFix)
  }

  /** The issues for `el` from the entries of `classes` it carries, in list
      order; `checkColorContrast` uses the suspicious classes. */
  function ContrastIssues(el: TextElement, classes: seq<string>): (r: seq<Issue>)
    ensures |r| <= |classes|
  {
    if classes == [] then []
    else
      var last := classes[|classes| - 1];
      ContrastIssues(el, classes[..|classes| - 1]) + (if last in el.classList then [ContrastIssue(el, last)] else [])
  }

  lemma ClassSnoc(el: TextElement, classes: seq<string>, c: nat)
    requires c < |classes|
    ensures ContrastIssues(el, classes[..c + 1]) ==
            ContrastIssues(el, classes[..c]) + (if classes[c] in el.classList then [ContrastIssue(el, classes[c])] else [])
  {
    assert classes[..c + 1][..c] == classes[..c];
  }

  function AllContrastIssues(els: seq<TextElement>): seq<Issue> {
    if els == [] then []
    else AllContrastIssues(els[..|els| - 1]) + ContrastIssues(els[|els| - 1], SuspiciousClasses)
  }

  lemma ContrastSnoc(els: seq<TextElement>, i: nat)
    requires i < |els|
    ensures AllContrastIssues(els[..i + 1]) == AllContrastIssues(els[..i]) + ContrastIssues(els[i], SuspiciousClasses)
  {
    assert els[..i + 1][..i] == els[..i];
  }

  /** `checkColorContrast`: one issue per element and suspicious class it carries. */
  method CheckColorContrast(doc: Option<Document>) returns (issues: seq<Issue>)
    ensures doc.None? ==> issues == []
    ensures doc.Some? ==> issues == AllContrastIssues(doc.value.textElements)
  {
    issues := [];
    if doc.None? {
      return;
    }
    var textElements := doc.value.textElements;
    for i := 0 to |textElements|
      invariant issues == AllContrastIssues(textElements[..i])
    {
      var found := ElementContrast(textElements[i], SuspiciousClasses);
      ContrastSnoc(textElements, i);
      issues := issues + found;
    }
    assert textElements[..|textElements|] == textElements;
  }

  /** The inner loop of `checkColorContrast`, over the class list. */
  method ElementContrast(el: TextElement, classes: seq<string>) returns (found: seq<Issue>)
    ensures found == ContrastIssues(el, classes)
  {
    found := [];
    for c := 0 to |classes|
      invariant found == ContrastIssues(el, classes[..c])
    {
      ClassSnoc(el, classes, c);
      var className := classes[c];
      if className in el.classList {
        found := found + [ContrastIssue(el, className)];
      }
    }
    assert classes[..|classes|] == classes;
  }

  predicate SpaceFree(t: string) {
    forall j :: 0 <= j < |t| ==> t[j] != ' '
  }

  /** Entries that hold a space never match a space-free class token. */
  lemma {:induction false} SpacedEntriesNeverMatch(el: TextElement, classes: seq<string>, spaced: seq<string>)
    requires forall k :: 0 <= k < |el.classList| ==> SpaceFree(el.classList[k])
    requires forall k :: 0 <= k < |spaced| ==> !SpaceFree(spaced[k])
    ensures ContrastIssues(el, classes + spaced) == ContrastIssues(el, classes)
    decreases |spaced|
  {
    if spaced == [] {
      assert classes + spaced == classes;
    } else {
      var init := spaced[..|spaced| - 1];
      var last := spaced[|spaced| - 1];
      assert (classes + spaced)[..|classes + spaced| - 1] == classes + init;
      assert (classes + spaced)[|classes + spaced| - 1] == last;
      SpacedEntriesNeverMatch(el, classes, init);
      assert !SpaceFree(last);
      assert last !in el.classList;
    }
  }

  /** Class tokens never hold a space, so the three two-class entries of
      the list never match: an element gets at most three contrast issues,
      those of the single-class entries. */
  lemma ContrastAtMostThree(el: TextElement)
    requires forall k :: 0 <= k < |el.classList| ==> SpaceFree(el.classList[k])
    ensures ContrastIssues(el, SuspiciousClasses) == ContrastIssues(el, SuspiciousClasses[..3])
    ensures |ContrastIssues(el, SuspiciousClasses)| <= 3
  {
    var spaced := SuspiciousClasses[3..];
    forall k | 0 <= k < |spaced|
      ensures !SpaceFree(spaced[k])
    {
      TwoClassEntries(k + 3);
    }
    assert SuspiciousClasses == SuspiciousClasses[..3] + spaced;
    SpacedEntriesNeverMatch(el, SuspiciousClasses[..3], spaced);
  }

  /** The last three entries name two classes, separated by a space. */
  lemma TwoClassEntries(k: nat)
    requires 3 <= k < |SuspiciousClasses|
    ensures !SpaceFree(SuspiciousClasses[k])
  {
    var cls := SuspiciousClasses[k];
    if k == 5 {
      assert cls[13] == ' ';
    } else {
      assert cls[10] == ' ';
    }
  }

  // ---------------------------------------------------------------------
  // Keyboard access
  // ---------------------------------------------------------------------

  /** Flagged when it lacks a `tabindex` or lacks both key handlers. */
  function KeyboardIssues(el: Clickable): (r: seq<Issue>)
    ensures |r| == 1 <==> !el.hasTabIndex || !(el.hasKeyDown || el.hasKeyPress)
    ensures r == [] || |r| == 1
  {
    if !el.hasTabIndex || !(el.hasKeyDown || el.hasKeyPress) then
      [Issue(el.outerHTML, KeyboardMessage, KeyboardCriterion, Critical,
             KeyboardFix)]
    else []
  }

  function AllKeyboardIssues(els: seq<Clickable>): seq<Issue> {
    if els == [] then [] else AllKeyboardIssues(els[..|els| - 1]) + KeyboardIssues(els[|els| - 1])
  }

  lemma KeyboardSnoc(els: seq<Clickable>, i: nat)
    requires i < |els|
    ensures AllKeyboardIssues(els[..i + 1]) == AllKeyboardIssues(els[..i]) + KeyboardIssues(els[i])
  {
    assert els[..i + 1][..i] == els[..i];
  }

  /** `checkKeyboardAccess` */
  method CheckKeyboardAccess(doc: Option<Document>) returns (issues: seq<Issue>)
    ensures doc.None? ==> issues == []
    ensures doc.Some? ==> issues == AllKeyboardIssues(doc.value.clickables)
  {
    issues := [];
    if doc.None? {
      return;
    }
    var elements := doc.value.clickables;
    for i := 0 to |elements|
      invariant issues == AllKeyboardIssues(elements[..i])
    {
      KeyboardSnoc(elements, i);
      issues := issues + KeyboardIssues(elements[i]);
    }
    assert elements[..|elements|] == elements;
  }

  // ---------------------------------------------------------------------
  // Form labels
  // ---------------------------------------------------------------------

  /** A field with a (non-empty) id is labelled only by a `label for=id`;
      a field without one only by an enclosing label. */
  predicate HasLabel(field: FormField, labelFors: seq<string>) {
    if Truthy(field.id) then field.id.value in labelFors else field.insideLabel
  }

  predicate NeedsLabel(field: FormField, labelFors: seq<string>) {
    field.typeAttr != Some("hidden") && !HasLabel(field, labelFors) && !Truthy(field.ariaLabel) && !Truthy(field.ariaLabelledBy)
  }

  function LabelIssues(field: FormField, labelFors: seq<string>): (r: seq<Issue>)
    ensures |r| == 1 <==> NeedsLabel(field, labelFors)
    ensures r == [] || |r| == 1
  {
    if field.typeAttr == Some("hidden") then []
    else if !HasLabel(field, labelFors) && !Truthy(field.ariaLabel) && !Truthy(field.ariaLabelledBy) then
      [Issue(field.outerHTML, LabelMessage, LabelsOrInstructions, High,
             LabelFix)]
    else []
  }

  function AllLabelIssues(fields: seq<FormField>, labelFors: seq<string>): seq<Issue> {
    if fields == [] then []
    else AllLabelIssues(fields[..|fields| - 1], labelFors) + LabelIssues(fields[|fields| - 1], labelFors)
  }

  lemma LabelSnoc(fields: seq<FormField>, labelFors: seq<string>, i: nat)
    requires i < |fields|
    ensures AllLabelIssues(fields[..i + 1], labelFors) == AllLabelIssues(fields[..i], labelFors) + LabelIssues(fields[i], labelFors)
  {
    assert fields[..i + 1][..i] == fields[..i];
  }

  /** `checkFormLabels` */
  method CheckFormLabels(doc: Option<Document>) returns (issues: seq<Issue>)
    ensures doc.None? ==> issues == []
    ensures doc.Some? ==> issues == AllLabelIssues(doc.value.formFields, doc.value.labelFors)
  {
    issues := [];
    if doc.None? {
      return;
    }
    var formFields := doc.value.formFields;
    var labelFors := doc.value.labelFors;
    for i := 0 to |formFields|
      invariant issues == AllLabelIssues(formFields[..i], labelFors)
    {
      var field := formFields[i];
      LabelSnoc(formFields, labelFors, i);
      if field.typeAttr != Some("hidden") {
        var hasLabel := false;
        if Truthy(field.id) {
          hasLabel := field.id.value in labelFors;
        } else {
          hasLabel := field.insideLabel;
        }
        if !hasLabel && !Truthy(field.ariaLabel) && !Truthy(field.ariaLabelledBy) {
          issues := issues + LabelIssues(field, labelFors);
        }
      }
    }
    assert formFields[..|formFields|] == formFields;
  }

  /** An id without a matching `label for` is flagged even inside a
      wrapping label, unless an ARIA label names it. */
  lemma IdOverridesWrappingLabel(field: FormField, labelFors: seq<string>)
    requires Truthy(field.id) && field.id.value !in labelFors && field.insideLabel
    requires field.typeAttr != Some("hidden") && !Truthy(field.ariaLabel) && !Truthy(field.ariaLabelledBy)
    ensures |LabelIssues(field, labelFors)| == 1
  {
  }

  // ---------------------------------------------------------------------
  // All checks and the severity groups
  // ---------------------------------------------------------------------

  /** `runAllChecks`: the five checks' results concatenated in order. */
  method RunAllChecks(doc: Option<Document>) returns (issues: seq<Issue>)
    ensures doc.None? ==> issues == []
    ensures doc.Some? ==> issues == AllIssues(doc.value)
  {
    var headings := CheckHeadingHierarchy(doc);
    var images := CheckImagesAltText(doc);
    var contrast := CheckColorContrast(doc);
    var keyboard := CheckKeyboardAccess(doc);
    var labels := CheckFormLabels(doc);
    issues := headings + images + contrast + keyboard + labels;
  }

  function AllIssues(d: Document): seq<Issue> {
    SkipIssues(d.headings, |d.headings|) + AllAltIssues(d.images) + AllContrastIssues(d.textElements)
      + AllKeyboardIssues(d.clickables) + AllLabelIssues(d.formFields, d.labelFors)
  }

  /** `issues.filter(issue => issue.severity === s)` */
  function BySeverity(issues: seq<Issue>, s: Severity): (r: seq<Issue>)
    ensures forall i :: 0 <= i < |r| ==> r[i].severity == s
  {
    if issues == [] then [] else (if issues[0].severity == s then [issues[0]] else []) + BySeverity(issues[1..], s)
  }

  lemma {:induction false} BySeverityAppend(a: seq<Issue>, b: seq<Issue>, s: Severity)
    ensures BySeverity(a + b, s) == BySeverity(a, s) + BySeverity(b, s)
    decreases |a|
  {
    if a == [] {
      assert a + b == b;
    } else {
      assert (a + b)[1..] == a[1..] + b;
      BySeverityAppend(a[1..], b, s);
    }
  }

  /** The four groups partition the issues: their sizes add up to the
      number of issues, and the group of an issue's own severity holds it
      exactly as often as the list does (the other groups never hold it). */
  lemma GroupsPartition(issues: seq<Issue>)
    ensures |BySeverity(issues, Critical)| + |BySeverity(issues, High)|
          + |BySeverity(issues, Medium)| + |BySeverity(issues, Low)| == |issues|
    ensures forall x: Issue :: multiset(BySeverity(issues, x.severity))[x] == multiset(issues)[x]
  {
    GroupSizes(issues);
    forall x: Issue
      ensures multiset(BySeverity(issues, x.severity))[x] == multiset(issues)[x]
    {
      GroupCount(issues, x);
    }
  }

  lemma {:induction false} GroupSizes(issues: seq<Issue>)
    ensures |BySeverity(issues, Critical)| + |BySeverity(issues, High)|
          + |BySeverity(issues, Medium)| + |BySeverity(issues, Low)| == |issues|
    decreases |issues|
  {
    if issues != [] {
      GroupSizes(issues[1..]);
    }
  }

  lemma {:induction false} GroupCount(issues: seq<Issue>, x: Issue)
    ensures multiset(BySeverity(issues, x.severity))[x] == multiset(issues)[x]
    decreases |issues|
  {
    if issues != [] {
      var first, rest := issues[0], issues[1..];
      GroupCount(rest, x);
      assert issues == [first] + rest;
      var head := if first.severity == x.severity then [first] else [];
      assert BySeverity(issues, x.severity) == head + BySeverity(rest, x.severity);
      assert multiset(head)[x] == multiset([first])[x];
    }
  }

  /** Only the heading check reports medium issues, so the medium group is
      exactly the heading issues. */
  lemma MediumGroupIsHeadings(d: Document)
    ensures BySeverity(AllIssues(d), Medium) == SkipIssues(d.headings, |d.headings|)
  {
    var h := SkipIssues(d.headings, |d.headings|);
    var a := AllAltIssues(d.images);
    var c := AllContrastIssues(d.textElements);
    var k := AllKeyboardIssues(d.clickables);
    var l := AllLabelIssues(d.formFields, d.labelFors);
    BySeverityAppend(h + a + c + k, l, Medium);
    BySeverityAppend(h + a + c, k, Medium);
    BySeverityAppend(h + a, c, Medium);
    BySeverityAppend(h, a, Medium);
    SkipIssuesMedium(d.headings, |d.headings|);
    NoMediumAlt(d.images);
    NoMediumContrast(d.textElements);
    NoMediumKeyboard(d.clickables);
    NoMediumLabels(d.formFields, d.labelFors);
  }

  lemma {:induction false} SkipIssuesMedium(hs: seq<Heading>, n: nat)
    requires n <= |hs|
    ensures BySeverity(SkipIssues(hs, n), Medium) == SkipIssues(hs, n)
  {
    if n > 0 {
      SkipIssuesMedium(hs, n - 1);
      var tail := if Skips(hs, n - 1) then [SkipIssue(hs[n - 1], hs[n - 2].level)] else [];
      BySeverityAppend(SkipIssues(hs, n - 1), tail, Medium);
    }
  }

  lemma {:induction false} NoMediumAlt(imgs: seq<Image>)
    ensures BySeverity(AllAltIssues(imgs), Medium) == []
    decreases |imgs|
  {
    if imgs != [] {
      NoMediumAlt(imgs[..|imgs| - 1]);
      BySeverityAppend(AllAltIssues(imgs[..|imgs| - 1]), AltIssues(imgs[|imgs| - 1]), Medium);
      AltSeverity(imgs[|imgs| - 1], Medium);
    }
  }

  lemma {:induction false} NoMediumContrast(els: seq<TextElement>)
    ensures BySeverity(AllContrastIssues(els), Medium) == []
    decreases |els|
  {
    if els != [] {
      NoMediumContrast(els[..|els| - 1]);
      ContrastIsHigh(els[|els| - 1], SuspiciousClasses);
      BySeverityAppend(AllContrastIssues(els[..|els| - 1]), ContrastIssues(els[|els| - 1], SuspiciousClasses), Medium);
    }
  }

  lemma {:induction false} ContrastIsHigh(el: TextElement, classes: seq<string>)
    ensures BySeverity(ContrastIssues(el, classes), Medium) == []
    decreases |classes|
  {
    if classes != [] {
      var init := classes[..|classes| - 1];
      var last := classes[|classes| - 1];
      ContrastIsHigh(el, init);
      var tail := if last in el.classList then [ContrastIssue(el, last)] else [];
      BySeverityAppend(ContrastIssues(el, init), tail, Medium);
    }
  }

  lemma {:induction false} NoMediumKeyboard(els: seq<Clickable>)
    ensures BySeverity(AllKeyboardIssues(els), Medium) == []
    decreases |els|
  {
    if els != [] {
      NoMediumKeyboard(els[..|els| - 1]);
      BySeverityAppend(AllKeyboardIssues(els[..|els| - 1]), KeyboardIssues(els[|els| - 1]), Medium);
    }
  }

  lemma {:induction false} NoMediumLabels(fields: seq<FormField>, labelFors: seq<string>)
    ensures BySeverity(AllLabelIssues(fields, labelFors), Medium) == []
    decreases |fields|
  {
    if fields != [] {
      NoMediumLabels(fields[..|fields| - 1], labelFors);
      BySeverityAppend(AllLabelIssues(fields[..|fields| - 1], labelFors), LabelIssues(fields[|fields| - 1], labelFors), Medium);
    }
  }

  /** What `logAccessibilityIssues` reports: nothing without a document,
      the all-clear line for no issues, otherwise the four severity groups
      (a group that is empty is not printed). */
  datatype Log = NoDocument | NoIssues | Grouped(critical: seq<Issue>, high: seq<Issue>, medium: seq<Issue>, low: seq<Issue>)

  method LogAccessibilityIssues(doc: Option<Document>) returns (log: Log)
    ensures doc.None? <==> log.NoDocument?
    ensures doc.Some? ==> (log.NoIssues? <==> AllIssues(doc.value) == [])
    ensures log.Grouped? ==> doc.Some? && log == Grouped(BySeverity(AllIssues(doc.value), Critical), BySeverity(AllIssues(doc.value), High),
                                                        BySeverity(AllIssues(doc.value), Medium), BySeverity(AllIssues(doc.value), Low))
  {
    if doc.None? {
      return NoDocument;
    }
    var issues := RunAllChecks(doc);
    if |issues| == 0 {
      return NoIssues;
    }
    log := Grouped(BySeverity(issues, Critical), BySeverity(issues, High), BySeverity(issues, Medium), BySeverity(issues, Low));
  }
}
