/** The responsive-layout debugging helper: `logBreakpoint` classifies the
    window width into one of the five Tailwind breakpoints and logs it. */
module Breakpoints {
  import opened Util

  datatype Breakpoint = Xs | Sm | Md | Lg | Xl

  /** Position of a breakpoint in the order xs < sm < md < lg < xl. */
  function Rank(b: Breakpoint): nat {
    match b
    case Xs => 0
    case Sm => 1
    case Md => 2
    case Lg => 3
    case Xl => 4
  }

  /** The label `logBreakpoint` prints for each breakpoint. */
  function Label(b: Breakpoint): string {
    match b
    case Xs => "xs (< 640px)"
    case Sm => "sm (640px - 767px)"
    case Md => "md (768px - 1023px)"
    case Lg => "lg (1024px - 1279px)"
    case Xl => "xl (≥ 1280px)"
  }

  /** Smallest width that belongs to each breakpoint (`xs` has no lower bound). */
  function LowerBound(b: Breakpoint): int
    requires b != Xs
  {
    match b
    case Sm => 640
    case Md => 768
    case Lg => 1024
    case Xl => 1280
  }

  /** `getBreakpoint`: the chain of threshold tests on `window.innerWidth`. */
  function GetBreakpoint(width: int): Breakpoint {
    if width < 640 then Xs
    else if width < 768 then Sm
    else if width < 1024 then Md
    else if width < 1280 then Lg
    else Xl
  }

  /** Each breakpoint covers exactly the documented width range. */
  lemma BreakpointRanges(width: int)
    ensures GetBreakpoint(width) == Xs <==> width < 640
    ensures GetBreakpoint(width) == Sm <==> 640 <= width < 768
    ensures GetBreakpoint(width) == Md <==> 768 <= width < 1024
    ensures GetBreakpoint(width) == Lg <==> 1024 <= width < 1280
    ensures GetBreakpoint(width) == Xl <==> 1280 <= width
  {
  }

  /** A width gets breakpoint `b` exactly when it reaches `b`'s lower bound and
      not the next one: the breakpoints partition the integers. */
  lemma BreakpointIsTightest(width: int, b: Breakpoint)
    requires b != Xs
    ensures Rank(GetBreakpoint(width)) >= Rank(b) <==> width >= LowerBound(b)
  {
  }

  /** A wider window never gets a smaller breakpoint. */
  lemma BreakpointMonotone(w1: int, w2: int)
    requires w1 <= w2
    ensures Rank(GetBreakpoint(w1)) <= Rank(GetBreakpoint(w2))
  {
  }

  /** The browser window as far as `logBreakpoint` reads it. */
  datatype Window = Window(innerWidth: int, innerHeight: int)

  /** The console lines `logBreakpoint` prints: nothing without a window,
      otherwise the breakpoint label and the window size. */
  function LogBreakpoint(window: Option<Window>): (lines: seq<string>)
    ensures window.None? <==> lines == []
    ensures window.Some? ==>
              |lines| == 2 && lines[0] == "Current breakpoint: " + Label(GetBreakpoint(window.value.innerWidth))
    ensures window.Some? ==>
              lines[1] == "Window dimensions: " + IntToString(window.value.innerWidth) + "px × "
                          + IntToString(window.value.innerHeight) + "px"
  {
    match window
    case None => []
    case Some(w) =>
      ["Current breakpoint: " + Label(GetBreakpoint(w.innerWidth)),
       "Window dimensions: " + IntToString(w.innerWidth) + "px × " + IntToString(w.innerHeight) + "px"]
  }

  function DigitsOf(n: nat): string
    decreases n
  {
    if n < 10 then [('0' as int + n) as char] else DigitsOf(n / 10) + [('0' as int + n % 10) as char]
  }

  /** Decimal rendering of an integer as a template literal prints it. */
  function IntToString(n: int): string {
    if n < 0 then "-" + DigitsOf(-n) else DigitsOf(n)
  }
}
