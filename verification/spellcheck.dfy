/** The content spell checker: the text kept from a component file, the
    tokeniser and its skip rules, the dictionary extended with the
    configured words, the reports for misspelled words, and the per-file
    summary that lists each distinct word once. The dictionary library is
    abstract: a word list and a correction function fixed at construction. */
module SpellCheck {
  import opened Util

  // ---------------------------------------------------------------------
  // Configuration
  // ---------------------------------------------------------------------

  const IgnoreWords: seq<string> := [
    "BenFresh", "React", "Next", "TypeScript", "JavaScript", "Tailwind", "CSS", "HTML",
    "SEO", "DSGVO", "WhatsApp", "Cookie", "WCAG", "Analytics", "ARIA"]

  const AdditionalWords: seq<string> := [
    "Reinigung", "Reinigungsdienstleistungen", "Gebäudereinigung", "Fensterreinigung",
    "Teppichreinigung", "Bodenreinigung", "Reinigungsfirma", "Haushaltsreinigung",
    "Büroreinigung", "Unterhaltsreinigung", "Grundreinigung", "Sonderreinigung",
    "Reinigungsservice", "Reinigungsmittel", "Köln", "Datenschutzerklärung", "Impressum",
    "Kontaktformular", "Terminvereinbarung", "Dienstleistungen", "Angebot", "Preise",
    "Kundenservice", "Qualitätsgarantie", "Kundenzufriedenheit", "Anfahrt", "Beratung",
    "Erfahrung", "Zuverlässigkeit", "Pünktlichkeit", "Teamarbeit", "Vertragsbedingungen",
    "Zahlungsbedingungen", "Servicezeiten", "Zufriedenheitsgarantie", "Rückruf",
    "kostenlos", "unverbindlich", "professionell"]

  // ---------------------------------------------------------------------
  // Text extraction filters
  // ---------------------------------------------------------------------

  /** The regular-expression captures of one file, in match order:
      attribute values, text between `>` and `<`, and quoted strings. */
  datatype Captures = Captures(attrValues: seq<string>, jsxTexts: seq<string>, stringLiterals: seq<string>)

  /** Trimmed JSX text is kept when non-empty, not an expression and not code. */
  predicate KeepJsx(t: string) {
    |t| > 0 && !StartsWith(t, "{") && !Contains(t, "function(")
  }

  /** A trimmed string literal is kept when longer than three UTF-16 code
      units and not a path, a URL or an import. */
  predicate KeepLiteral(t: string) {
    Utf16Length(t) > 3 && !Contains(t, "./") && !Contains(t, "../") && !Contains(t, "http")
      && !Contains(t, "import ") && !Contains(t, "from ")
  }

  /** The trimmed texts of `xs` that `keep` accepts, in order. */
  function Kept(xs: seq<string>, keep: string -> bool): (r: seq<string>)
    ensures |r| <= |xs|
  {
    if xs == [] then []
    else Kept(xs[..|xs| - 1], keep) + (if keep(Trim(xs[|xs| - 1])) then [Trim(xs[|xs| - 1])] else [])
  }

  lemma KeptSnoc(xs: seq<string>, i: nat, keep: string -> bool)
    requires i < |xs|
    ensures Kept(xs[..i + 1], keep) == Kept(xs[..i], keep) + (if keep(Trim(xs[i])) then [Trim(xs[i])] else [])
  {
    assert xs[..i + 1][..i] == xs[..i];
  }

  /** A kept text is the trimmed form of some capture and passes the filter;
      every capture whose trimmed form passes is kept. */
  lemma KeptMembers(xs: seq<string>, keep: string -> bool, t: string)
    ensures t in Kept(xs, keep) <==> keep(t) && exists i :: 0 <= i < |xs| && Trim(xs[i]) == t
  {
    if t in Kept(xs, keep) {
      KeptSound(xs, keep, t);
    }
    if keep(t) && exists i :: 0 <= i < |xs| && Trim(xs[i]) == t {
      var i :| 0 <= i < |xs| && Trim(xs[i]) == t;
      KeptComplete(xs, keep, i);
    }
  }

  lemma {:induction false} KeptSound(xs: seq<string>, keep: string -> bool, t: string)
    requires t in Kept(xs, keep)
    ensures keep(t) && exists i :: 0 <= i < |xs| && Trim(xs[i]) == t
    decreases |xs|
  {
    var init := xs[..|xs| - 1];
    if t in Kept(init, keep) {
      KeptSound(init, keep, t);
      var i :| 0 <= i < |init| && Trim(init[i]) == t;
      assert xs[i] == init[i];
    } else {
      assert Trim(xs[|xs| - 1]) == t;
    }
  }

  lemma {:induction false} KeptComplete(xs: seq<string>, keep: string -> bool, i: nat)
    requires i < |xs| && keep(Trim(xs[i]))
    ensures Trim(xs[i]) in Kept(xs, keep)
    decreases |xs|
  {
    var init := xs[..|xs| - 1];
    if i < |xs| - 1 {
      assert init[i] == xs[i];
      KeptComplete(init, keep, i);
    }
  }

  /** The literal filter's `../` test is subsumed by its `./` test. */
  lemma ParentPathTestRedundant(t: string)
    requires Contains(t, "../")
    ensures Contains(t, "./")
  {
    var i :| 0 <= i <= |t| - 3 && OccursAt(t, "../", i);
    assert t[i + 1..i + 3] == t[i..i + 3][1..];
    assert OccursAt(t, "./", i + 1);
  }

  /** One filtering regex loop: push each trimmed capture `keep` accepts. */
  method KeepTrimmed(xs: seq<string>, keep: string -> bool) returns (texts: seq<string>)
    ensures texts == Kept(xs, keep)
  {
    texts := [];
    for i := 0 to |xs|
      invariant texts == Kept(xs[..i], keep)
    {
      KeptSnoc(xs, i, keep);
      var text := Trim(xs[i]);
      if keep(text) {
        texts := texts + [text];
      }
    }
    assert xs[..|xs|] == xs;
  }

  /** `extractTextFromReactFile`: attribute values as captured, then the kept
      JSX texts, then the kept string literals. */
  method ExtractText(c: Captures) returns (texts: seq<string>)
    ensures texts == c.attrValues + Kept(c.jsxTexts, KeepJsx) + Kept(c.stringLiterals, KeepLiteral)
  {
    texts := [];
    for i := 0 to |c.attrValues|
      invariant texts == c.attrValues[..i]
    {
      texts := texts + [c.attrValues[i]];
    }
    assert c.attrValues[..|c.attrValues|] == c.attrValues;
    var jsx := KeepTrimmed(c.jsxTexts, KeepJsx);
    var literals := KeepTrimmed(c.stringLiterals, KeepLiteral);
    texts := texts + jsx + literals;
  }

  // ---------------------------------------------------------------------
  // Tokeniser and skip rules
  // ---------------------------------------------------------------------

  /** The character class the text is split on. */
  predicate IsWordDelimiter(c: char) {
    c == ' ' || c == '\t' || c == '\n' || c == ',' || c == '.' || c == '!' || c == '?'
      || c == ';' || c == ':' || c == '(' || c == ')' || c == '[' || c == ']' || c == '"'
      || c == '\'' || c == '\U{00AB}' || c == '\U{00BB}' || c == '\U{2013}' || c == '\U{2014}'
  }

  /** The trimmed, non-empty pieces, in order. */
  function NonEmptyTrimmed(pieces: seq<string>): (r: seq<string>)
    ensures |r| <= |pieces|
  {
    if pieces == [] then []
    else (if Trim(pieces[0]) != [] then [Trim(pieces[0])] else []) + NonEmptyTrimmed(pieces[1..])
  }

  /** The words of a text. */
  function Words(text: string): seq<string> {
    NonEmptyTrimmed(Split(text, IsWordDelimiter))
  }

  lemma {:induction false} NonEmptyTrimmedSound(pieces: seq<string>, w: string)
    requires w in NonEmptyTrimmed(pieces)
    ensures w != [] && exists k :: 0 <= k < |pieces| && Trim(pieces[k]) == w
    decreases |pieces|
  {
    if w in NonEmptyTrimmed(pieces[1..]) {
      NonEmptyTrimmedSound(pieces[1..], w);
      var k :| 0 <= k < |pieces[1..]| && Trim(pieces[1..][k]) == w;
      assert pieces[k + 1] == pieces[1..][k];
    } else {
      assert Trim(pieces[0]) == w;
    }
  }

  lemma TrimInside(s: string, j: nat)
    requires j < |Trim(s)|
    ensures Trim(s)[j] in s
  {
    var t := TrimStart(s);
    TrimStartSuffix(s);
    TrimEndPrefix(t);
    assert Trim(s) == t[..|Trim(s)|];
    assert t[j] == s[|s| - |t| + j];
  }

  /** Every word is non-empty, has no surrounding whitespace and holds no
      delimiter. */
  lemma WordsSound(text: string, w: string)
    requires w in Words(text)
    ensures w != [] && !IsSpace(w[0]) && !IsSpace(w[|w| - 1])
    ensures forall j :: 0 <= j < |w| ==> !IsWordDelimiter(w[j])
  {
    var pieces := Split(text, IsWordDelimiter);
    NonEmptyTrimmedSound(pieces, w);
    var k :| 0 <= k < |pieces| && Trim(pieces[k]) == w;
    SplitSound(text, IsWordDelimiter);
    forall j | 0 <= j < |w|
      ensures !IsWordDelimiter(w[j])
    {
      TrimInside(pieces[k], j);
      var m :| 0 <= m < |pieces[k]| && pieces[k][m] == w[j];
    }
  }

  predicate AllDigits(w: string) {
    |w| > 0 && forall j :: 0 <= j < |w| ==> IsDigit(w[j])
  }

  predicate ConstantChar(c: char) {
    'A' <= c <= 'Z' || IsDigit(c) || c == '_'
  }

  /** `/^[A-Z0-9_]+$/` */
  predicate ConstantName(w: string) {
    |w| > 0 && forall j :: 0 <= j < |w| ==> ConstantChar(w[j])
  }

  /** A token that is likely code or not a word (the length is counted in
      UTF-16 code units). */
  predicate Skip(w: string) {
    Utf16Length(w) <= 1 || StartsWith(w, "{") || HasChar(w, '}') || StartsWith(w, "<") || Contains(w, "/>")
      || HasChar(w, '=') || w == "true" || w == "false" || w == "null" || w == "undefined"
      || AllDigits(w) || ConstantName(w)
  }

  /** Numbers are caught by the constant-name rule as well. */
  lemma DigitsAreConstantNames(w: string)
    requires AllDigits(w)
    ensures ConstantName(w)
  {
  }

  // ---------------------------------------------------------------------
  // The checker
  // ---------------------------------------------------------------------

  /** One misspelled word of one text. */
  datatype Report = Report(word: string, suggestions: seq<string>, fileName: string)

  /** The spell-checking library: its own word list, its corrections, and
      the words added at run time. */
  class SpellChecker {
    const known: string -> bool
    const corrections: string -> seq<string>
    var added: seq<string>

    constructor (known: string -> bool, corrections: string -> seq<string>)
      ensures this.known == known && this.corrections == corrections && added == []
    {
      this.known := known;
      this.corrections := corrections;
      added := [];
    }

    /** A word is misspelled when neither the word list nor the added words
        hold it. */
    predicate IsMisspelled(word: string)
      reads this
    {
      !known(word) && word !in added
    }

    method Add(word: string)
      modifies this
      ensures added == old(added) + [word]
    {
      added := added + [word];
    }

    /** `setupSpellChecker`: every ignored and every additional word is added. */
    method Setup()
      modifies this
      ensures added == old(added) + IgnoreWords + AdditionalWords
    {
      AddAll(IgnoreWords);
      AddAll(AdditionalWords);
    }

    /** One of `setupSpellChecker`'s loops: the words are added in order. */
    method AddAll(words: seq<string>)
      modifies this
      ensures added == old(added) + words
    {
      for i := 0 to |words|
        invariant added == old(added) + words[..i]
      {
        Add(words[i]);
      }
      assert words[..|words|] == words;
    }

    /** At most the first three corrections, in the library's order. */
    function Suggestions(word: string): (r: seq<string>)
      ensures |r| <= 3 && |r| <= |corrections(word)| && r == corrections(word)[..|r|]
      ensures |r| < 3 ==> r == corrections(word)
    {
      var c := corrections(word);
      if |c| <= 3 then c else c[..3]
    }

    /** The reports for a sequence of words, in word order. */
    function Reports(words: seq<string>, fileName: string): seq<Report>
      reads this
    {
      if words == [] then []
      else
        var w := words[|words| - 1];
        Reports(words[..|words| - 1], fileName)
          + (if !Skip(w) && IsMisspelled(w) then [Report(w, Suggestions(w), fileName)] else [])
    }

    lemma ReportsSnoc(words: seq<string>, i: nat, fileName: string)
      requires i < |words|
      ensures Reports(words[..i + 1], fileName) == Reports(words[..i], fileName)
                + (if !Skip(words[i]) && IsMisspelled(words[i]) then [Report(words[i], Suggestions(words[i]), fileName)] else [])
    {
      assert words[..i + 1][..i] == words[..i];
    }

    /** `checkSpelling` */
    method CheckSpelling(text: string, fileName: string) returns (misspelled: seq<Report>)
      ensures misspelled == Reports(Words(text), fileName)
    {
      misspelled := [];
      var words := Words(text);
      for i := 0 to |words|
        invariant misspelled == Reports(words[..i], fileName)
      {
        ReportsSnoc(words, i, fileName);
        var word := words[i];
        if Skip(word) {
          continue;
        }
        if IsMisspelled(word) {
          misspelled := misspelled + [Report(word, Suggestions(word), fileName)];
        }
      }
      assert words[..|words|] == words;
    }

    /** A word is reported exactly when it occurs, is not skipped and is
        misspelled; every report names the file and the word's (at most
        three) suggestions. */
    lemma {:induction false} ReportsExact(words: seq<string>, fileName: string, r: Report)
      ensures r in Reports(words, fileName) <==>
                r.word in words && !Skip(r.word) && IsMisspelled(r.word)
                && r.fileName == fileName && r.suggestions == Suggestions(r.word)
      decreases |words|
    {
      if words != [] {
        var init := words[..|words| - 1];
        ReportsExact(init, fileName, r);
        assert words == init + [words[|words| - 1]];
      }
    }

    /** After setup, no configured word is ever reported. */
    lemma ConfiguredWordsNotReported(words: seq<string>, fileName: string, r: Report)
      requires forall k :: 0 <= k < |IgnoreWords| ==> IgnoreWords[k] in added
      requires forall k :: 0 <= k < |AdditionalWords| ==> AdditionalWords[k] in added
      requires r.word in IgnoreWords || r.word in AdditionalWords
      ensures r !in Reports(words, fileName)
    {
      ReportsExact(words, fileName, r);
    }
  }

  /** The configured words are all among the added words after `Setup`. */
  lemma SetupCoversConfiguredWords(before: seq<string>, after: seq<string>)
    requires after == before + IgnoreWords + AdditionalWords
    ensures forall k :: 0 <= k < |IgnoreWords| ==> IgnoreWords[k] in after
    ensures forall k :: 0 <= k < |AdditionalWords| ==> AdditionalWords[k] in after
  {
    forall k | 0 <= k < |IgnoreWords|
      ensures IgnoreWords[k] in after
    {
      assert after[|before| + k] == IgnoreWords[k];
    }
    forall k | 0 <= k < |AdditionalWords|
      ensures AdditionalWords[k] in after
    {
      assert after[|before| + |IgnoreWords| + k] == AdditionalWords[k];
    }
  }

  // ---------------------------------------------------------------------
  // Per-file summary
  // ---------------------------------------------------------------------

  /** The distinct file names of the reports, in order of first appearance
      (the key order of the `byFile` object). */
  function FileOrder(entries: seq<Report>): seq<string> {
    if entries == [] then []
    else
      var init := FileOrder(entries[..|entries| - 1]);
      var f := entries[|entries| - 1].fileName;
      if f in init then init else init + [f]
  }

  /** The reports of one file, in order. */
  function OfFile(entries: seq<Report>, f: string): (r: seq<Report>)
    ensures forall k :: 0 <= k < |r| ==> r[k].fileName == f
  {
    if entries == [] then []
    else OfFile(entries[..|entries| - 1], f) + (if entries[|entries| - 1].fileName == f then [entries[|entries| - 1]] else [])
  }

  /** `files` and `byFile` group the reports `entries`. */
  ghost predicate Grouped(entries: seq<Report>, files: seq<string>, byFile: map<string, seq<Report>>) {
    files == FileOrder(entries)
    && (forall f :: f in byFile <==> f in files)
    && (forall f :: f in byFile ==> byFile[f] == OfFile(entries, f))
    && (forall f :: f !in byFile ==> OfFile(entries, f) == [])
  }

  /** One more report joins its file's group, opening it if it is new. */
  lemma GroupedSnoc(entries: seq<Report>, i: nat, files: seq<string>, byFile: map<string, seq<Report>>)
    requires i < |entries| && Grouped(entries[..i], files, byFile)
    ensures var e := entries[i];
            var group := if e.fileName in byFile then byFile[e.fileName] else [];
            Grouped(entries[..i + 1], if e.fileName in byFile then files else files + [e.fileName],
                    byFile[e.fileName := group + [e]])
  {
    assert entries[..i + 1][..i] == entries[..i];
  }

  /** `byFile`: the reports grouped by file name. */
  method GroupByFile(entries: seq<Report>) returns (files: seq<string>, byFile: map<string, seq<Report>>)
    ensures files == FileOrder(entries)
    ensures forall f :: f in byFile <==> f in files
    ensures forall f :: f in byFile ==> byFile[f] == OfFile(entries, f)
  {
    files, byFile := [], map[];
    for i := 0 to |entries|
      invariant Grouped(entries[..i], files, byFile)
    {
      var entry := entries[i];
      GroupedSnoc(entries, i, files, byFile);
      var known := entry.fileName in byFile;
      var group := if known then byFile[entry.fileName] else [];
      files := if known then files else files + [entry.fileName];
      byFile := byFile[entry.fileName := group + [entry]];
    }
    assert entries[..|entries|] == entries;
  }

  /** The file order lists each file of the reports once. */
  lemma {:induction false} FileOrderExact(entries: seq<Report>)
    ensures forall f :: f in FileOrder(entries) <==> exists k :: 0 <= k < |entries| && entries[k].fileName == f
    ensures forall a, b :: 0 <= a < b < |FileOrder(entries)| ==> FileOrder(entries)[a] != FileOrder(entries)[b]
    decreases |entries|
  {
    if entries != [] {
      var init := entries[..|entries| - 1];
      FileOrderExact(init);
      forall f | exists k :: 0 <= k < |entries| && entries[k].fileName == f
        ensures f in FileOrder(entries)
      {
        var k :| 0 <= k < |entries| && entries[k].fileName == f;
        if k < |entries| - 1 {
          assert init[k] == entries[k];
        }
      }
      forall f | f in FileOrder(init)
        ensures exists k :: 0 <= k < |entries| && entries[k].fileName == f
      {
        var k :| 0 <= k < |init| && init[k].fileName == f;
        assert entries[k] == init[k];
      }
    }
  }

  /** One line of a file's summary: a word and the suggestions shown. */
  datatype Listed = Listed(word: string, suggestions: seq<string>)

  predicate Lists(ls: seq<Listed>, w: string) {
    exists k :: 0 <= k < |ls| && ls[k].word == w
  }

  /** The words of the reports, each once, with the suggestions of its first
      report, in order of first appearance. */
  function Unique(entries: seq<Report>): seq<Listed> {
    if entries == [] then []
    else
      var init := Unique(entries[..|entries| - 1]);
      var e := entries[|entries| - 1];
      if Lists(init, e.word) then init else init + [Listed(e.word, e.suggestions)]
  }

  lemma UniqueSnoc(entries: seq<Report>, i: nat)
    requires i < |entries|
    ensures Unique(entries[..i + 1]) == (if Lists(Unique(entries[..i]), entries[i].word) then Unique(entries[..i])
                                         else Unique(entries[..i]) + [Listed(entries[i].word, entries[i].suggestions)])
  {
    assert entries[..i + 1][..i] == entries[..i];
  }

  /** The `uniqueWords` loop of the summary; the lookup is an own-key test. */
  method ListUnique(entries: seq<Report>) returns (uniqueWords: seq<Listed>)
    ensures uniqueWords == Unique(entries)
  {
    uniqueWords := [];
    for i := 0 to |entries|
      invariant uniqueWords == Unique(entries[..i])
    {
      UniqueSnoc(entries, i);
      var entry := entries[i];
      var seen := false;
      for k := 0 to |uniqueWords|
        invariant seen <==> exists m :: 0 <= m < k && uniqueWords[m].word == entry.word
      {
        if uniqueWords[k].word == entry.word {
          seen := true;
        }
      }
      if !seen {
        uniqueWords := uniqueWords + [Listed(entry.word, entry.suggestions)];
      }
    }
    assert entries[..|entries|] == entries;
  }

  /** Index of the first report of `w`. */
  predicate FirstReport(entries: seq<Report>, k: int, w: string) {
    0 <= k < |entries| && entries[k].word == w && forall m :: 0 <= m < k ==> entries[m].word != w
  }

  /** `l` carries a word and the suggestions of that word's first report. */
  predicate FromFirstReport(entries: seq<Report>, l: Listed) {
    exists k | 0 <= k < |entries| :: FirstReport(entries, k, l.word) && entries[k].suggestions == l.suggestions
  }

  /** Every reported word is listed, exactly once, with the suggestions of
      its first report. */
  lemma UniqueExact(entries: seq<Report>)
    ensures forall w :: Lists(Unique(entries), w) <==> exists k :: 0 <= k < |entries| && entries[k].word == w
    ensures forall a, b :: 0 <= a < b < |Unique(entries)| ==> Unique(entries)[a].word != Unique(entries)[b].word
    ensures forall a :: 0 <= a < |Unique(entries)| ==>
              FromFirstReport(entries, Unique(entries)[a])
  {
    forall w
      ensures Lists(Unique(entries), w) <==> exists k :: 0 <= k < |entries| && entries[k].word == w
    {
      UniqueWords(entries, w);
    }
    UniqueDistinct(entries);
    UniqueFirst(entries);
  }

  lemma {:induction false} UniqueWords(entries: seq<Report>, w: string)
    ensures Lists(Unique(entries), w) <==> exists k :: 0 <= k < |entries| && entries[k].word == w
    decreases |entries|
  {
    if entries != [] {
      var init := entries[..|entries| - 1];
      var u := Unique(init);
      UniqueWords(init, w);
      if exists k :: 0 <= k < |entries| && entries[k].word == w {
        var k :| 0 <= k < |entries| && entries[k].word == w;
        if k < |entries| - 1 {
          assert init[k].word == w;
          var m :| 0 <= m < |u| && u[m].word == w;
          assert Unique(entries)[m] == u[m];
        } else if !Lists(u, w) {
          assert Unique(entries)[|u|].word == w;
        }
      }
      if Lists(Unique(entries), w) {
        var m :| 0 <= m < |Unique(entries)| && Unique(entries)[m].word == w;
        if m < |u| {
          assert u[m] == Unique(entries)[m];
          var k :| 0 <= k < |init| && init[k].word == w;
          assert entries[k] == init[k];
        } else {
          assert entries[|entries| - 1].word == w;
        }
      }
    }
  }

  lemma {:induction false} UniqueDistinct(entries: seq<Report>)
    ensures forall a, b :: 0 <= a < b < |Unique(entries)| ==> Unique(entries)[a].word != Unique(entries)[b].word
    decreases |entries|
  {
    if entries != [] {
      UniqueDistinct(entries[..|entries| - 1]);
    }
  }

  lemma {:induction false} UniqueFirst(entries: seq<Report>)
    ensures forall a :: 0 <= a < |Unique(entries)| ==>
              FromFirstReport(entries, Unique(entries)[a])
    decreases |entries|
  {
    if entries != [] {
      var init := entries[..|entries| - 1];
      var e := entries[|entries| - 1];
      var u := Unique(init);
      UniqueFirst(init);
      forall a | 0 <= a < |Unique(entries)|
        ensures FromFirstReport(entries, Unique(entries)[a])
      {
        var l := Unique(entries)[a];
        if a < |u| {
          assert l == u[a];
          assert FromFirstReport(init, u[a]);
          var k :| 0 <= k < |init| && FirstReport(init, k, l.word) && init[k].suggestions == l.suggestions;
          assert entries[k] == init[k];
          forall m | 0 <= m < k
            ensures entries[m].word != l.word
          {
            assert entries[m] == init[m];
          }
          assert FirstReport(entries, k, l.word);
        } else {
          assert !Lists(u, e.word);
          assert l == Listed(e.word, e.suggestions);
          UniqueWords(init, e.word);
          forall m | 0 <= m < |entries| - 1
            ensures entries[m].word != e.word
          {
            assert entries[m] == init[m];
          }
          assert FirstReport(entries, |entries| - 1, l.word);
        }
      }
    }
  }

  // ---------------------------------------------------------------------
  // The summary's lookup as written
  // ---------------------------------------------------------------------

  /** Names every plain object inherits from `Object.prototype`; looking one
      of them up in `uniqueWords` finds the inherited member. */
  const InheritedNames: seq<string> := [
    "constructor", "hasOwnProperty", "isPrototypeOf", "propertyIsEnumerable",
    "toLocaleString", "toString", "valueOf", "__proto__",
    "__defineGetter__", "__defineSetter__", "__lookupGetter__", "__lookupSetter__"]

  /** The summary as the script computes it: `!uniqueWords[word]` is also
      false for an inherited name, so such a word is never listed. */
  function UniqueAsWritten(entries: seq<Report>): seq<Listed> {
    if entries == [] then []
    else
      var init := UniqueAsWritten(entries[..|entries| - 1]);
      var e := entries[|entries| - 1];
      if Lists(init, e.word) || e.word in InheritedNames then init else init + [Listed(e.word, e.suggestions)]
  }

  /** No inherited name is ever listed by the summary as written. */
  lemma {:induction false} InheritedNeverListed(entries: seq<Report>, w: string)
    requires w in InheritedNames
    ensures !Lists(UniqueAsWritten(entries), w)
    decreases |entries|
  {
    if entries != [] {
      InheritedNeverListed(entries[..|entries| - 1], w);
    }
  }

  /** A misspelled `constructor` in a text is counted but missing from the
      file's list, while the own-key lookup lists it. */
  lemma ConstructorDropped()
    ensures var entries := [Report("constructor", [], "src/app/page.tsx")];
            UniqueAsWritten(entries) == [] && Unique(entries) == [Listed("constructor", [])]
  {
    var entries := [Report("constructor", [], "src/app/page.tsx")];
    assert entries[..0] == [];
    assert "constructor" in InheritedNames;
  }

  /** Outside the inherited names the two lookups agree. */
  lemma {:induction false} AsWrittenAgrees(entries: seq<Report>)
    requires forall k :: 0 <= k < |entries| ==> entries[k].word !in InheritedNames
    ensures UniqueAsWritten(entries) == Unique(entries)
    decreases |entries|
  {
    if entries != [] {
      AsWrittenAgrees(entries[..|entries| - 1]);
    }
  }
}
