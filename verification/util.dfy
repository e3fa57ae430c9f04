/** Shared vocabulary: an optional value, JavaScript truthiness of an
    optional string, and the handful of JavaScript string operations the
    site's code relies on (`length`, `includes`, `startsWith`, `endsWith`,
    `trim`, `toLowerCase`; the last two restricted to ASCII). */
module Util {

  datatype Option<T> = None | Some(value: T)

  /** JavaScript truthiness of an optional string: present and non-empty. */
  predicate Truthy(o: Option<string>) {
    o.Some? && o.value != ""
  }

  /** `o || fallback` for an optional string. */
  function Or(o: Option<string>, fallback: string): (r: string)
    ensures Truthy(o) ==> r == o.value
    ensures !Truthy(o) ==> r == fallback
    ensures r != "" <==> fallback != "" || Truthy(o)
  {
    if Truthy(o) then o.value else fallback
  }

  /** `s.length`: UTF-16 code units, one per character of the Basic
      Multilingual Plane and two (a surrogate pair) per character above it. */
  function Utf16Length(s: string): (n: nat)
    ensures |s| <= n <= 2 * |s|
  {
    if s == [] then 0 else (if s[0] as int > 0xFFFF then 2 else 1) + Utf16Length(s[1..])
  }

  /** On text within the Basic Multilingual Plane (ASCII included) `length`
      counts characters. */
  lemma {:induction false} Utf16LengthBmp(s: string)
    requires forall i :: 0 <= i < |s| ==> s[i] as int <= 0xFFFF
    ensures Utf16Length(s) == |s|
  {
    if s != [] {
      Utf16LengthBmp(s[1..]);
    }
  }

  /** `s.startsWith(p)` */
  predicate StartsWith(s: string, p: string) {
    |p| <= |s| && s[..|p|] == p
  }

  /** `s.endsWith(p)` */
  predicate EndsWith(s: string, p: string) {
    |p| <= |s| && s[|s| - |p|..] == p
  }

  /** `p` occurs in `s` starting at offset `i`. */
  predicate OccursAt(s: string, p: string, i: int) {
    0 <= i <= |s| - |p| && s[i..i + |p|] == p
  }

  /** `s.includes(p)`: `p` occurs in `s` at some offset. */
  predicate Contains(s: string, p: string) {
    exists i | 0 <= i <= |s| - |p| :: OccursAt(s, p, i)
  }

  /** `s.includes(c)` for a single character. */
  predicate HasChar(s: string, c: char) {
    exists i :: 0 <= i < |s| && s[i] == c
  }

  lemma ContainsChar(s: string, c: char)
    ensures Contains(s, [c]) <==> HasChar(s, c)
  {
    if HasChar(s, c) {
      var i :| 0 <= i < |s| && s[i] == c;
      assert OccursAt(s, [c], i);
    }
    if Contains(s, [c]) {
      var i :| 0 <= i <= |s| - 1 && OccursAt(s, [c], i);
      assert s[i..i + 1] == [c];
      assert s[i] == c;
    }
  }

  lemma ContainsSelf(s: string)
    ensures Contains(s, s)
  {
    assert OccursAt(s, s, 0);
  }

  /** Whitespace removed by `String.prototype.trim`, narrowed to ASCII. */
  predicate IsSpace(c: char) {
    c == ' ' || c == '\t' || c == '\n' || c == '\r' || c == '\U{000B}' || c == '\U{000C}'
  }

  function TrimStart(s: string): (r: string)
    ensures |r| <= |s|
    ensures r != [] ==> !IsSpace(r[0])
  {
    if s != [] && IsSpace(s[0]) then TrimStart(s[1..]) else s
  }

  function TrimEnd(s: string): (r: string)
    ensures |r| <= |s|
    ensures r != [] ==> !IsSpace(r[|r| - 1])
  {
    if s != [] && IsSpace(s[|s| - 1]) then TrimEnd(s[..|s| - 1]) else s
  }

  /** Trimming the start leaves a suffix. */
  lemma {:induction false} TrimStartSuffix(s: string)
    ensures TrimStart(s) == s[|s| - |TrimStart(s)|..]
    decreases |s|
  {
    if s != [] && IsSpace(s[0]) {
      TrimStartSuffix(s[1..]);
    }
  }

  /** Trimming the end leaves a prefix. */
  lemma {:induction false} TrimEndPrefix(s: string)
    ensures TrimEnd(s) == s[..|TrimEnd(s)|]
    decreases |s|
  {
    if s != [] && IsSpace(s[|s| - 1]) {
      TrimEndPrefix(s[..|s| - 1]);
    }
  }

  /** `s.trim()` */
  function Trim(s: string): (r: string)
    ensures |r| <= |s|
    ensures r != [] ==> !IsSpace(r[0]) && !IsSpace(r[|r| - 1])
  {
    TrimEndPrefix(TrimStart(s));
    TrimEnd(TrimStart(s))
  }

  function LowerChar(c: char): char {
    if 'A' <= c <= 'Z' then (c as int + 32) as char else c
  }

  /** `s.toLowerCase()`, ASCII letters only. */
  function Lower(s: string): (r: string)
    ensures |r| == |s|
    ensures forall i :: 0 <= i < |s| ==> r[i] == LowerChar(s[i])
  {
    if s == [] then [] else [LowerChar(s[0])] + Lower(s[1..])
  }

  predicate IsDigit(c: char) {
    '0' <= c <= '9'
  }

  /** Keeps the elements that satisfy `p`, in order (`Array.prototype.filter`). */
  function Filter<T(!new)>(xs: seq<T>, p: T -> bool): (r: seq<T>)
    ensures |r| <= |xs|
    ensures forall x :: x in r <==> x in xs && p(x)
  {
    if xs == [] then [] else (if p(xs[0]) then [xs[0]] else []) + Filter(xs[1..], p)
  }

  lemma FilterAppend<T(!new)>(xs: seq<T>, ys: seq<T>, p: T -> bool)
    ensures Filter(xs + ys, p) == Filter(xs, p) + Filter(ys, p)
  {
    if xs == [] {
      assert xs + ys == ys;
    } else {
      assert (xs + ys)[1..] == xs[1..] + ys;
      FilterAppend(xs[1..], ys, p);
    }
  }

  /** Index of the first character satisfying `isDelim`, if any. */
  function FindFirst(s: string, isDelim: char -> bool): (r: Option<nat>)
    ensures r.Some? ==> r.value < |s| && isDelim(s[r.value])
  {
    if s == [] then None
    else if isDelim(s[0]) then Some(0)
    else match FindFirst(s[1..], isDelim)
      case None => None
      case Some(i) => Some(i + 1)
  }

  /** The index found is the first delimiter; none found means there is no
      delimiter at all. */
  lemma {:induction false} FindFirstSound(s: string, isDelim: char -> bool)
    ensures FindFirst(s, isDelim).Some? ==> forall j :: 0 <= j < FindFirst(s, isDelim).value ==> !isDelim(s[j])
    ensures FindFirst(s, isDelim).None? ==> forall j :: 0 <= j < |s| ==> !isDelim(s[j])
    decreases |s|
  {
    if s != [] && !isDelim(s[0]) {
      FindFirstSound(s[1..], isDelim);
      forall j | 1 <= j < |s|
        ensures s[j] == s[1..][j - 1]
      {
      }
    }
  }

  /** The first delimiter is found at `j` when there is none before it. */
  lemma {:induction false} FindFirstAt(s: string, isDelim: char -> bool, j: nat)
    requires j < |s| && isDelim(s[j])
    requires forall i :: 0 <= i < j ==> !isDelim(s[i])
    ensures FindFirst(s, isDelim) == Some(j)
    decreases j
  {
    if j > 0 {
      assert !isDelim(s[0]);
      assert s[1..][j - 1] == s[j];
      forall i | 0 <= i < j - 1
        ensures !isDelim(s[1..][i])
      {
        assert s[1..][i] == s[i + 1];
      }
      FindFirstAt(s[1..], isDelim, j - 1);
    }
  }

  /** Splitting at the first delimiter `j`. */
  lemma SplitAt(s: string, isDelim: char -> bool, j: nat)
    requires j < |s| && isDelim(s[j])
    requires forall i :: 0 <= i < j ==> !isDelim(s[i])
    ensures Split(s, isDelim) == [s[..j]] + Split(s[j + 1..], isDelim)
  {
    FindFirstAt(s, isDelim, j);
    SplitFound(s, isDelim, j);
  }

  lemma SplitFound(s: string, isDelim: char -> bool, j: nat)
    requires FindFirst(s, isDelim) == Some(j)
    ensures Split(s, isDelim) == [s[..j]] + Split(s[j + 1..], isDelim)
  {
  }

  /** `s.split(d)` where `d` matches single characters: the (possibly
      empty) pieces between consecutive delimiters, in order. */
  function Split(s: string, isDelim: char -> bool): (r: seq<string>)
    ensures |r| >= 1
    decreases |s|
  {
    match FindFirst(s, isDelim)
    case None => [s]
    case Some(i) => [s[..i]] + Split(s[i + 1..], isDelim)
  }

  /** Number of characters of `s` satisfying `p`. */
  function CountWhere(s: string, p: char -> bool): nat {
    if s == [] then 0 else (if p(s[0]) then 1 else 0) + CountWhere(s[1..], p)
  }

  /** `s` with the characters satisfying `p` removed. */
  function RemoveWhere(s: string, p: char -> bool): string {
    if s == [] then [] else (if p(s[0]) then [] else [s[0]]) + RemoveWhere(s[1..], p)
  }

  function Flatten(parts: seq<string>): string {
    if parts == [] then [] else parts[0] + Flatten(parts[1..])
  }

  lemma {:induction false} CountWhereAppend(a: string, b: string, p: char -> bool)
    ensures CountWhere(a + b, p) == CountWhere(a, p) + CountWhere(b, p)
  {
    if a == [] {
      assert a + b == b;
    } else {
      assert (a + b)[1..] == a[1..] + b;
      CountWhereAppend(a[1..], b, p);
    }
  }

  lemma {:induction false} RemoveWhereAppend(a: string, b: string, p: char -> bool)
    ensures RemoveWhere(a + b, p) == RemoveWhere(a, p) + RemoveWhere(b, p)
  {
    if a == [] {
      assert a + b == b;
    } else {
      assert (a + b)[1..] == a[1..] + b;
      RemoveWhereAppend(a[1..], b, p);
    }
  }

  lemma {:induction false} NoneWhere(s: string, p: char -> bool)
    requires forall j :: 0 <= j < |s| ==> !p(s[j])
    ensures CountWhere(s, p) == 0 && RemoveWhere(s, p) == s
  {
    if s != [] {
      NoneWhere(s[1..], p);
    }
  }

  /** The pieces of a split contain no delimiter, there is one more piece
      than there are delimiters, and gluing the pieces back together gives
      the text with its delimiters removed. */
  lemma SplitSound(s: string, isDelim: char -> bool)
    ensures forall k, j :: 0 <= k < |Split(s, isDelim)| && 0 <= j < |Split(s, isDelim)[k]| ==> !isDelim(Split(s, isDelim)[k][j])
    ensures |Split(s, isDelim)| == CountWhere(s, isDelim) + 1
    ensures Flatten(Split(s, isDelim)) == RemoveWhere(s, isDelim)
  {
    SplitPieces(s, isDelim);
    SplitCount(s, isDelim);
    SplitFlatten(s, isDelim);
  }

  lemma {:induction false} SplitPieces(s: string, isDelim: char -> bool)
    ensures forall k, j :: 0 <= k < |Split(s, isDelim)| && 0 <= j < |Split(s, isDelim)[k]| ==> !isDelim(Split(s, isDelim)[k][j])
    decreases |s|
  {
    FindFirstSound(s, isDelim);
    match FindFirst(s, isDelim)
    case None =>
    case Some(i) =>
      var rest := Split(s[i + 1..], isDelim);
      SplitPieces(s[i + 1..], isDelim);
      assert Split(s, isDelim) == [s[..i]] + rest;
      forall k, j | 0 <= k < |Split(s, isDelim)| && 0 <= j < |Split(s, isDelim)[k]|
        ensures !isDelim(Split(s, isDelim)[k][j])
      {
        if k > 0 {
          assert Split(s, isDelim)[k] == rest[k - 1];
        }
      }
  }

  /** The delimiter at `i`, with none before it, splits the text around it. */
  lemma FirstDelimiterParts(s: string, isDelim: char -> bool, i: nat)
    requires i < |s| && isDelim(s[i])
    requires forall j :: 0 <= j < i ==> !isDelim(s[j])
    ensures CountWhere(s, isDelim) == 1 + CountWhere(s[i + 1..], isDelim)
    ensures RemoveWhere(s, isDelim) == s[..i] + RemoveWhere(s[i + 1..], isDelim)
  {
    var head, rest := s[..i] + [s[i]], s[i + 1..];
    assert s == head + rest;
    FirstDelimiterHead(s[..i], s[i], isDelim);
    CountWhereAppend(head, rest, isDelim);
    RemoveWhereAppend(head, rest, isDelim);
  }

  /** A delimiter-free prefix followed by one delimiter counts one and
      leaves the prefix when delimiters are removed. */
  lemma FirstDelimiterHead(a: string, c: char, isDelim: char -> bool)
    requires isDelim(c)
    requires forall j :: 0 <= j < |a| ==> !isDelim(a[j])
    ensures CountWhere(a + [c], isDelim) == 1
    ensures RemoveWhere(a + [c], isDelim) == a
  {
    NoneWhere(a, isDelim);
    CountWhereAppend(a, [c], isDelim);
    RemoveWhereAppend(a, [c], isDelim);
    assert CountWhere([c], isDelim) == 1 + CountWhere([], isDelim);
    assert RemoveWhere([c], isDelim) == [] + RemoveWhere([], isDelim);
  }

  lemma {:induction false} SplitCount(s: string, isDelim: char -> bool)
    ensures |Split(s, isDelim)| == CountWhere(s, isDelim) + 1
    decreases |s|
  {
    FindFirstSound(s, isDelim);
    match FindFirst(s, isDelim)
    case None =>
      NoneWhere(s, isDelim);
    case Some(i) =>
      SplitCount(s[i + 1..], isDelim);
      FirstDelimiterParts(s, isDelim, i);
  }

  lemma {:induction false} SplitFlatten(s: string, isDelim: char -> bool)
    ensures Flatten(Split(s, isDelim)) == RemoveWhere(s, isDelim)
    decreases |s|
  {
    FindFirstSound(s, isDelim);
    match FindFirst(s, isDelim)
    case None =>
      NoneWhere(s, isDelim);
      assert Flatten([s]) == s + Flatten([]);
    case Some(i) =>
      var rest := Split(s[i + 1..], isDelim);
      SplitFlatten(s[i + 1..], isDelim);
      FirstDelimiterParts(s, isDelim, i);
      assert ([s[..i]] + rest)[1..] == rest;
  }

  /** A text with no delimiter splits into itself alone. */
  lemma SplitNoDelimiter(s: string, isDelim: char -> bool)
    requires forall j :: 0 <= j < |s| ==> !isDelim(s[j])
    ensures Split(s, isDelim) == [s]
  {
  }
}
