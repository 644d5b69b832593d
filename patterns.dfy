/**
 * The fixed regular expressions the form validates with. Each one is anchored
 * at both ends and is a sequence of character classes with exact repeat counts
 * (`^\d{12}$`, `^[A-Z]{5}[0-9]{4}[A-Z]{1}$`, ...), so a pattern is a list of
 * runs and matching is deterministic.
 */
module Patterns {
  import opened Text

  /** `\d` and `[0-9]`; `[A-Z]`; `[A-Za-z]` */
  datatype CharClass = Digit | Upper | Letter

  /** `cls{count}` */
  datatype Run = Run(cls: CharClass, count: nat)

  /** `^run run ... run$` */
  type Pattern = seq<Run>

  predicate InClass(cls: CharClass, c: char) {
    match cls
    case Digit => IsDigit(c)
    case Upper => IsUpper(c)
    case Letter => IsLetter(c)
  }

  /** Whether the whole of `s` matches `p`. */
  predicate FullMatch(p: Pattern, s: string)
    decreases p
  {
    if p == [] then s == []
    else
      |s| >= p[0].count
      && (forall i | 0 <= i < p[0].count :: InClass(p[0].cls, s[i]))
      && FullMatch(p[1..], s[p[0].count..])
  }

  /** Length of every string the pattern matches. */
  function Width(p: Pattern): nat {
    if p == [] then 0 else p[0].count + Width(p[1..])
  }

  /** The class that the character at position `i` of a match must belong to. */
  function ClassAt(p: Pattern, i: nat): CharClass
    requires i < Width(p)
    decreases p
  {
    if i < p[0].count then p[0].cls else ClassAt(p[1..], i - p[0].count)
  }

  /**
   * Matching a pattern means having its width and, position by position, a
   * character of the class the pattern puts there.
   */
  lemma {:induction false} FullMatchIff(p: Pattern, s: string)
    ensures FullMatch(p, s) <==>
      |s| == Width(p) && forall i | 0 <= i < |s| :: InClass(ClassAt(p, i), s[i])
    decreases p
  {
    if p != [] {
      var n := p[0].count;
      FullMatchIff(p[1..], if |s| >= n then s[n..] else []);
      if |s| >= n {
        if FullMatch(p, s) {
          forall i | 0 <= i < |s| ensures InClass(ClassAt(p, i), s[i]) {
            if i >= n { assert s[i] == s[n..][i - n]; }
          }
        }
        if |s| == Width(p) && forall i | 0 <= i < |s| :: InClass(ClassAt(p, i), s[i]) {
          forall i | 0 <= i < |s| - n ensures InClass(ClassAt(p[1..], i), s[n..][i]) {
            assert ClassAt(p, i + n) == ClassAt(p[1..], i);
          }
        }
      }
    }
  }

  const TwelveDigits: Pattern := [Run(Digit, 12)]
  const SixDigits: Pattern := [Run(Digit, 6)]
  /** `^[A-Z]{5}[0-9]{4}[A-Z]{1}$` */
  const PanUpperCase: Pattern := [Run(Upper, 5), Run(Digit, 4), Run(Upper, 1)]
  /** `^[A-Za-z]{5}[0-9]{4}[A-Za-z]{1}$` */
  const PanAnyCase: Pattern := [Run(Letter, 5), Run(Digit, 4), Run(Letter, 1)]

  /** A string matches `^\d{n}$` exactly when it is n ASCII digits. */
  lemma DigitsMatch(n: nat, s: string)
    ensures FullMatch([Run(Digit, n)], s) <==> |s| == n && AllDigits(s)
  {
    FullMatchIff([Run(Digit, n)], s);
    assert forall i | 0 <= i < n :: ClassAt([Run(Digit, n)], i) == Digit;
  }

  /** The shape the PAN patterns describe, with `letter` the class of the six letter positions. */
  predicate PanShape(s: string, letter: char -> bool) {
    |s| == 10
    && (forall i | 0 <= i < 5 :: letter(s[i]))
    && (forall i | 5 <= i < 9 :: IsDigit(s[i]))
    && letter(s[9])
  }

  lemma PanClasses(p: Pattern, cls: CharClass)
    requires p == [Run(cls, 5), Run(Digit, 4), Run(cls, 1)]
    ensures Width(p) == 10
    ensures forall i | 0 <= i < 5 :: ClassAt(p, i) == cls
    ensures forall i | 5 <= i < 9 :: ClassAt(p, i) == Digit
    ensures ClassAt(p, 9) == cls
  {
    assert p[1..] == [Run(Digit, 4), Run(cls, 1)];
    assert p[1..][1..] == [Run(cls, 1)];
    assert p[1..][1..][1..] == [];
    assert Width(p[1..][1..]) == 1;
    assert Width(p[1..]) == 5;
    assert ClassAt(p, 9) == ClassAt(p[1..], 4) == ClassAt(p[1..][1..], 0);
  }

  /** `^[A-Z]{5}[0-9]{4}[A-Z]{1}$`: five capitals, four digits, one capital. */
  lemma PanUpperCaseMatch(s: string)
    ensures FullMatch(PanUpperCase, s) <==> PanShape(s, IsUpper)
  {
    FullMatchIff(PanUpperCase, s);
    PanClasses(PanUpperCase, Upper);
  }

  /** `^[A-Za-z]{5}[0-9]{4}[A-Za-z]{1}$`: five letters, four digits, one letter, in either case. */
  lemma PanAnyCaseMatch(s: string)
    ensures FullMatch(PanAnyCase, s) <==> PanShape(s, IsLetter)
  {
    FullMatchIff(PanAnyCase, s);
    PanClasses(PanAnyCase, Letter);
  }
}
