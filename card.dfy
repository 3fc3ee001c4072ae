/**
 * The fractal card: `formatEquation` rewrites `^digits` to
 * `<sup>digits</sup>` and then `_digits` to `<sub>digits</sub>`, and a click
 * navigates only for a card with a path whose name is not marked "(W.I.P)".
 */
module Card {
  import opened Common

  /** `\d`: an ASCII digit. */
  predicate IsDigit(c: char) { '0' <= c <= '9' }

  /** The length of the run of digits `s` starts with. */
  function DigitRun(s: string): (n: nat)
    ensures n <= |s|
    ensures forall i :: 0 <= i < n ==> IsDigit(s[i])
    ensures n < |s| ==> !IsDigit(s[n])
  {
    if |s| > 0 && IsDigit(s[0]) then 1 + DigitRun(s[1..]) else 0
  }

  function Open(tag: string): string { "<" + tag + ">" }
  function Close(tag: string): string { "</" + tag + ">" }

  /**
   * `s.replace(/<marker>(\d+)/g, '<tag>$1</tag>')`: scanning left to right,
   * each marker followed by at least one digit is replaced, together with
   * the whole run of digits after it, by the run wrapped in the tag; every
   * other character is copied.
   */
  function Replace(marker: char, tag: string, s: string): string
    decreases |s|
  {
    if |s| == 0 then ""
    else if s[0] == marker && |s| > 1 && IsDigit(s[1]) then
      var n := DigitRun(s[1..]);
      Open(tag) + s[1..1 + n] + Close(tag) + Replace(marker, tag, s[1 + n..])
    else [s[0]] + Replace(marker, tag, s[1..])
  }

  /** `formatEquation`: the superscript pass, then the subscript pass. */
  function FormatEquation(equation: string): string
  {
    Replace('_', "sub", Replace('^', "sup", equation))
  }

  /** A string without the marker goes through a pass unchanged. */
  lemma {:induction false} ReplaceWithoutMarker(marker: char, tag: string, s: string)
    requires marker !in s
    ensures Replace(marker, tag, s) == s
    decreases |s|
  {
    if |s| > 0 {
      ReplaceWithoutMarker(marker, tag, s[1..]);
      assert s == [s[0]] + s[1..];
    }
  }

  /** Hence an equation with no `^` and no `_` is returned as it is. */
  lemma PlainEquationUnchanged(equation: string)
    requires '^' !in equation && '_' !in equation
    ensures FormatEquation(equation) == equation
  {
    ReplaceWithoutMarker('^', "sup", equation);
    ReplaceWithoutMarker('_', "sub", equation);
  }

  /** The characters of `s` that `keep` selects, in order. */
  function Kept(keep: char -> bool, s: string): string
  {
    if |s| == 0 then "" else (if keep(s[0]) then [s[0]] else "") + Kept(keep, s[1..])
  }

  lemma {:induction false} KeptAppend(keep: char -> bool, a: string, b: string)
    ensures Kept(keep, a + b) == Kept(keep, a) + Kept(keep, b)
    decreases |a|
  {
    if |a| == 0 {
      assert a + b == b;
    } else {
      var head := if keep(a[0]) then [a[0]] else "";
      assert (a + b)[0] == a[0];
      assert (a + b)[1..] == a[1..] + b;
      KeptAppend(keep, a[1..], b);
      assert Kept(keep, a + b) == head + Kept(keep, a[1..] + b);
      assert Kept(keep, a) == head + Kept(keep, a[1..]);
    }
  }

  lemma {:induction false} KeptNone(keep: char -> bool, s: string)
    requires forall i :: 0 <= i < |s| ==> !keep(s[i])
    ensures Kept(keep, s) == ""
    decreases |s|
  {
    if |s| > 0 {
      KeptNone(keep, s[1..]);
    }
  }

  /** Text between tags that `keep` ignores reads as the text alone. */
  lemma KeptTagged(keep: char -> bool, tag: string, text: string)
    requires forall i :: 0 <= i < |Open(tag)| ==> !keep(Open(tag)[i])
    requires forall i :: 0 <= i < |Close(tag)| ==> !keep(Close(tag)[i])
    ensures Kept(keep, Open(tag) + text + Close(tag)) == Kept(keep, text)
  {
    KeptAppend(keep, Open(tag) + text, Close(tag));
    KeptAppend(keep, Open(tag), text);
    KeptNone(keep, Open(tag));
    KeptNone(keep, Close(tag));
  }

  /**
   * A pass changes no character outside the marker and the tags: the
   * characters of any class that excludes both read the same, in the same
   * order, before and after.
   */
  lemma {:induction false} ReplaceKeeps(keep: char -> bool, marker: char, tag: string, s: string)
    requires !keep(marker)
    requires forall i :: 0 <= i < |Open(tag)| ==> !keep(Open(tag)[i])
    requires forall i :: 0 <= i < |Close(tag)| ==> !keep(Close(tag)[i])
    ensures Kept(keep, Replace(marker, tag, s)) == Kept(keep, s)
    decreases |s|
  {
    if |s| == 0 {
    } else if s[0] == marker && |s| > 1 && IsDigit(s[1]) {
      var n := DigitRun(s[1..]);
      var text, rest := s[1..1 + n], s[1 + n..];
      ReplaceKeeps(keep, marker, tag, rest);
      KeptAppend(keep, Open(tag) + text + Close(tag), Replace(marker, tag, rest));
      KeptTagged(keep, tag, text);
      assert s[1..] == text + rest;
      KeptAppend(keep, text, rest);
    } else {
      ReplaceKeeps(keep, marker, tag, s[1..]);
    }
  }

  /** Digits keep their order through both passes. */
  lemma DigitsKeepOrder(equation: string)
    ensures Kept(IsDigit, FormatEquation(equation)) == Kept(IsDigit, equation)
  {
    ReplaceKeeps(IsDigit, '^', "sup", equation);
    ReplaceKeeps(IsDigit, '_', "sub", Replace('^', "sup", equation));
  }

  /**
   * The subscript pass sees exactly the underscores of the original
   * equation, in place among its other characters: the superscript tags
   * bring in none.
   */
  lemma SupPassKeepsUnderscores(equation: string)
    ensures Kept(c => c == '_', Replace('^', "sup", equation)) == Kept(c => c == '_', equation)
  {
    ReplaceKeeps(c => c == '_', '^', "sup", equation);
  }

  /** A marker with a run of digits after it is replaced together with the whole run. */
  lemma ReplacesWholeRun(marker: char, tag: string, digits: string, rest: string)
    requires |digits| > 0 && forall i :: 0 <= i < |digits| ==> IsDigit(digits[i])
    requires |rest| > 0 ==> !IsDigit(rest[0])
    ensures Replace(marker, tag, [marker] + digits + rest)
      == Open(tag) + digits + Close(tag) + Replace(marker, tag, rest)
  {
    var s := [marker] + digits + rest;
    assert s[1..] == digits + rest;
    DigitRunOf(digits, rest);
    assert s[1..1 + |digits|] == digits && s[1 + |digits|..] == rest;
  }

  lemma {:induction false} DigitRunOf(digits: string, rest: string)
    requires forall i :: 0 <= i < |digits| ==> IsDigit(digits[i])
    requires |rest| > 0 ==> !IsDigit(rest[0])
    ensures DigitRun(digits + rest) == |digits|
    decreases |digits|
  {
    if |digits| > 0 {
      assert (digits + rest)[1..] == digits[1..] + rest;
      DigitRunOf(digits[1..], rest);
    } else {
      assert digits + rest == rest;
    }
  }

  /** A marker followed by a non-digit, as in `z_n`, is copied as it is. */
  lemma MarkerBeforeNonDigitIsKept(marker: char, tag: string, rest: string)
    requires |rest| > 0 && !IsDigit(rest[0])
    ensures Replace(marker, tag, [marker] + rest) == [marker] + Replace(marker, tag, rest)
  {
    assert ([marker] + rest)[1..] == rest;
  }

  /** `isWIP`: the name contains "(W.I.P)". */
  predicate IsWIP(name: string)
  {
    Contains(name, "(W.I.P)")
  }

  /**
   * `handleClick`: the page to navigate to, if any. A missing or empty path
   * is falsy; a work-in-progress card never navigates.
   */
  function HandleClick(name: string, path: Option<string>): (target: Option<string>)
    ensures target.Some? <==> path.Some? && path.value != "" && !IsWIP(name)
    ensures target.Some? ==> target == path
  {
    if path.Some? && path.value != "" && !IsWIP(name) then path else None
  }
}
