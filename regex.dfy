/**
 * The six regular expressions of the scorer, each modelled as a matcher
 * that follows the backtracking order of the JavaScript regex engine, and
 * `String.prototype.match` with the `g` flag, which returns the list of
 * whole matches found left to right.  `parseInt(_, 10)` is modelled here
 * too, because it is only ever applied to such a whole match.
 */
module Regex {
  import opened Text

  datatype Option<T> = None | Some(value: T)

  // ---------------------------------------------------------------------
  // Character classes (non-Unicode mode, so `\d` and `\w` are ASCII)
  // ---------------------------------------------------------------------

  /** `\d` */
  predicate IsDigit(c: char) { '0' <= c <= '9' }

  /** `\w` */
  predicate IsWordChar(c: char) {
    IsAsciiLower(c) || IsAsciiUpper(c) || IsDigit(c) || c == '_'
  }

  /** LineTerminator: LF, CR, LINE SEPARATOR, PARAGRAPH SEPARATOR (what `.` refuses). */
  predicate IsLineTerminator(c: char) {
    c == '\n' || c == '\r' || c as int == 0x2028 || c as int == 0x2029
  }

  /**
   * `\s`: WhiteSpace and LineTerminator.  The same set is what `parseInt`
   * skips at the start of its argument.
   */
  predicate IsSpace(c: char) {
    var n := c as int;
    n == 0x09 || n == 0x0B || n == 0x0C || n == 0x20 || n == 0xA0 || n == 0x1680
    || (0x2000 <= n <= 0x200A) || n == 0x202F || n == 0x205F || n == 0x3000 || n == 0xFEFF
    || IsLineTerminator(c)
  }

  datatype CharClass = Digit | Space | Word | LowerLetter | UpperLetter

  predicate InClass(k: CharClass, c: char) {
    match k
    case Digit => IsDigit(c)
    case Space => IsSpace(c)
    case Word => IsWordChar(c)
    case LowerLetter => IsAsciiLower(c)
    case UpperLetter => IsAsciiUpper(c)
  }

  /** End of the longest run of class `k` starting at `p` (what a greedy `k*` first takes). */
  function RunEnd(k: CharClass, s: string, p: nat): (r: nat)
    requires p <= |s|
    decreases |s| - p
    ensures p <= r <= |s|
    ensures forall i | p <= i < r :: InClass(k, s[i])
    ensures r == |s| || !InClass(k, s[r])
  {
    if p < |s| && InClass(k, s[p]) then RunEnd(k, s, p + 1) else p
  }

  /** The literal `lit` (written in lower case) matches case-insensitively at `p`. */
  predicate LitAt(s: string, p: nat, lit: string) {
    p + |lit| <= |s| && Lower(s[p..p + |lit|]) == lit
  }

  /** `\b` at position `p`. */
  predicate IsBoundary(s: string, p: nat)
    requires p <= |s|
  {
    (p > 0 && IsWordChar(s[p - 1])) != (p < |s| && IsWordChar(s[p]))
  }

  // ---------------------------------------------------------------------
  // The patterns
  // ---------------------------------------------------------------------

  datatype Pattern =
    | DottedName          // /\b[A-Z][a-z]+\.[a-z]+\b/g
    | Acronym             // /\b[A-Z]{2,}\b/g
    | QualifiedPhrase     // /\b\w+(?:\s+\w+)*(?:\s+(?:experience|skills?|knowledge|proficiency|motivated|enthusiastic))\b/gi
    | YearsOfExperience   // /(\d+)\s*(?:years?|yrs?)\s*(?:of\s*)?experience/gi
    | ExperienceThenYears // /experience.*?(\d+)\s*(?:years?|yrs?)/gi
    | YearsInField        // /(\d+)\s*(?:years?|yrs?)\s*(?:in\s*)?(?:the\s*)?(?:field|industry|role)/gi

  /** `a` if it succeeded, else the backtracking alternative `b`. */
  function OrElse(a: Option<nat>, b: Option<nat>): Option<nat> {
    if a.Some? then a else b
  }

  /*
   * A note on greedy runs.  In every pattern below, each `\d+`, `\s*`,
   * `\s+`, `\w+` and `[a-z]+` is followed by something that cannot start
   * with a character of its own class (or by `\b` after a word
   * character).  Giving back characters of such a run therefore always
   * fails, so the engine's backtracking into it can only succeed with the
   * longest run, which is the only one the matchers try.
   */

  /** The positions after `(?:years?|yrs?)` at `r`, in the order the engine tries them. */
  function UnitEnds(s: string, r: nat): (ends: seq<nat>)
    ensures forall i | 0 <= i < |ends| :: r < ends[i] <= |s|
  {
    (if LitAt(s, r, "year") then (if LitAt(s, r + 4, "s") then [r + 5] else []) + [r + 4] else [])
    + (if LitAt(s, r, "yr") then (if LitAt(s, r + 2, "s") then [r + 3] else []) + [r + 2] else [])
  }

  /** `experience` at `w`. */
  function ExperienceAt(s: string, w: nat): (r: Option<nat>)
    ensures r.Some? ==> w < r.value <= |s|
  {
    if LitAt(s, w, "experience") then Some(w + 10) else None
  }

  /** `\s*(?:of\s*)?experience` at `c`. */
  function OfExperienceAt(s: string, c: nat): (r: Option<nat>)
    requires c <= |s|
    ensures r.Some? ==> c < r.value <= |s|
  {
    var u := RunEnd(Space, s, c);
    OrElse(if LitAt(s, u, "of") then ExperienceAt(s, RunEnd(Space, s, u + 2)) else None,
           ExperienceAt(s, u))
  }

  /** `(?:field|industry|role)` at `w`. */
  function FieldAt(s: string, w: nat): (r: Option<nat>)
    ensures r.Some? ==> w < r.value <= |s|
  {
    if LitAt(s, w, "field") then Some(w + 5)
    else if LitAt(s, w, "industry") then Some(w + 8)
    else if LitAt(s, w, "role") then Some(w + 4)
    else None
  }

  /** `(?:the\s*)?(?:field|industry|role)` at `v`. */
  function TheFieldAt(s: string, v: nat): (r: Option<nat>)
    requires v <= |s|
    ensures r.Some? ==> v < r.value <= |s|
  {
    OrElse(if LitAt(s, v, "the") then FieldAt(s, RunEnd(Space, s, v + 3)) else None,
           FieldAt(s, v))
  }

  /**
   * `\s*(?:in\s*)?(?:the\s*)?(?:field|industry|role)` at `c`.  Here the
   * backtracking matters: in "years industry" the optional `in` first
   * takes the "in" of "industry" and the engine must give it back.
   */
  function InTheFieldAt(s: string, c: nat): (r: Option<nat>)
    requires c <= |s|
    ensures r.Some? ==> c < r.value <= |s|
  {
    var u := RunEnd(Space, s, c);
    OrElse(if LitAt(s, u, "in") then TheFieldAt(s, RunEnd(Space, s, u + 2)) else None,
           TheFieldAt(s, u))
  }

  /** Tries the unit ends `ends[i..]` in order, each followed by the rest of pattern `pat`. */
  function FirstUnitEnd(pat: Pattern, s: string, ends: seq<nat>, i: nat): (r: Option<nat>)
    requires i <= |ends|
    requires forall j | 0 <= j < |ends| :: ends[j] <= |s|
    decreases |ends| - i
    ensures r.Some? ==> r.value <= |s|
    ensures r.Some? ==> exists j | i <= j < |ends| :: ends[j] <= r.value
  {
    if i == |ends| then None
    else
      var here :=
        match pat
        case YearsOfExperience => OfExperienceAt(s, ends[i])
        case YearsInField => InTheFieldAt(s, ends[i])
        case _ => Some(ends[i]);
      if here.Some? then here else FirstUnitEnd(pat, s, ends, i + 1)
  }

  /** `(\d+)\s*(?:years?|yrs?)` at `q`, followed by the rest of pattern `pat`. */
  function DigitsUnitAt(pat: Pattern, s: string, q: nat): (r: Option<nat>)
    requires q <= |s|
    ensures r.Some? ==> q < r.value <= |s|
  {
    if q < |s| && IsDigit(s[q]) then
      var ends := UnitEnds(s, RunEnd(Space, s, RunEnd(Digit, s, q)));
      FirstUnitEnd(pat, s, ends, 0)
    else None
  }

  /** `.*?(\d+)\s*(?:years?|yrs?)` at `q`: the lazy `.*?` grows one character (not a line end) at a time. */
  function LazyYearsAt(s: string, q: nat): (r: Option<nat>)
    requires q <= |s|
    decreases |s| - q
    ensures r.Some? ==> q < r.value <= |s|
  {
    var here := DigitsUnitAt(ExperienceThenYears, s, q);
    if here.Some? then here
    else if q < |s| && !IsLineTerminator(s[q]) then LazyYearsAt(s, q + 1)
    else None
  }

  /** The qualifier words of `QualifiedPhrase`; each must be a whole word (it is followed by `\b`). */
  predicate IsQualifier(w: string) {
    w in ["experience", "skills", "skill", "knowledge", "proficiency", "motivated", "enthusiastic"]
  }

  /**
   * `(?:\s+\w+)*(?:\s+qualifier)\b` after a word ending at `c`.  The greedy
   * star first takes every following word separated only by white space,
   * then gives words back from the right, so the match ends at the LAST
   * qualifier word in that chain.
   */
  function PhraseEnd(s: string, c: nat): (r: Option<nat>)
    requires c <= |s|
    decreases |s| - c
    ensures r.Some? ==> c < r.value <= |s|
  {
    var d := RunEnd(Space, s, c);
    if d == c || d == |s| || !IsWordChar(s[d]) then None
    else
      var e := RunEnd(Word, s, d);
      var later := PhraseEnd(s, e);
      if later.Some? then later
      else if IsQualifier(Lower(s[d..e])) then Some(e)
      else None
  }

  /** Where a match of `pat` attempted at `p` ends, or None if the attempt fails. */
  function MatchEnd(pat: Pattern, s: string, p: nat): (r: Option<nat>)
    requires p <= |s|
    ensures r.Some? ==> p < r.value <= |s|
  {
    match pat
    case DottedName =>
      if p < |s| && IsBoundary(s, p) && IsAsciiUpper(s[p]) then
        var a := RunEnd(LowerLetter, s, p + 1);
        if a > p + 1 && a < |s| && s[a] == '.' then
          var b := RunEnd(LowerLetter, s, a + 1);
          if b > a + 1 && IsBoundary(s, b) then Some(b) else None
        else None
      else None
    case Acronym =>
      if IsBoundary(s, p) then
        var a := RunEnd(UpperLetter, s, p);
        if a >= p + 2 && IsBoundary(s, a) then Some(a) else None
      else None
    case QualifiedPhrase =>
      if p < |s| && IsWordChar(s[p]) && IsBoundary(s, p) then PhraseEnd(s, RunEnd(Word, s, p))
      else None
    case YearsOfExperience => DigitsUnitAt(YearsOfExperience, s, p)
    case ExperienceThenYears => if LitAt(s, p, "experience") then LazyYearsAt(s, p + 10) else None
    case YearsInField => DigitsUnitAt(YearsInField, s, p)
  }

  // ---------------------------------------------------------------------
  // Global matching: `s.match(pat)` with the `g` flag
  // ---------------------------------------------------------------------

  /**
   * The spans of the successive matches of `pat` searched from `p` on.
   * Each search tries start positions from the last match's end upwards;
   * none of the patterns matches the empty string, so a match always
   * moves the search forward.
   */
  function Spans(pat: Pattern, s: string, p: nat): (r: seq<(nat, nat)>)
    requires p <= |s|
    decreases |s| - p
    ensures forall k | 0 <= k < |r| :: p <= r[k].0 < r[k].1 <= |s|
    ensures forall k | 0 <= k < |r| :: MatchEnd(pat, s, r[k].0) == Some(r[k].1)
    ensures forall k | 0 <= k < |r| - 1 :: r[k].1 <= r[k + 1].0
    ensures forall q | p <= q <= |s| && MatchEnd(pat, s, q).Some? :: |r| > 0 && r[0].0 <= q
  {
    if p == |s| then []
    else
      match MatchEnd(pat, s, p)
      case Some(e) => [(p, e)] + Spans(pat, s, e)
      case None => Spans(pat, s, p + 1)
  }

  /**
   * Global matching misses no match: every position from `p` on where `pat`
   * matches lies inside one of the spans found.  So no match starts in a gap
   * between spans or after the last one.
   */
  lemma {:induction false} SpansComplete(pat: Pattern, s: string, p: nat, q: nat)
    requires p <= q <= |s|
    requires MatchEnd(pat, s, q).Some?
    ensures exists k | 0 <= k < |Spans(pat, s, p)| :: Spans(pat, s, p)[k].0 <= q < Spans(pat, s, p)[k].1
    decreases |s| - p
  {
    var r := Spans(pat, s, p);
    if p < |s| {
      match MatchEnd(pat, s, p)
      case Some(e) =>
        if q < e {
          assert r[0].0 <= q < r[0].1;
        } else {
          SpansComplete(pat, s, e, q);
          var rest := Spans(pat, s, e);
          var k :| 0 <= k < |rest| && rest[k].0 <= q < rest[k].1;
          assert r[k + 1] == rest[k];
        }
      case None =>
        if q > p {
          SpansComplete(pat, s, p + 1, q);
        }
    }
  }

  /** `s.match(pat) || []`: the whole matches, in order. */
  function AllMatches(pat: Pattern, s: string): (r: seq<string>)
    ensures |r| == |Spans(pat, s, 0)|
    ensures forall k | 0 <= k < |r| :: r[k] == s[Spans(pat, s, 0)[k].0..Spans(pat, s, 0)[k].1]
    ensures forall k | 0 <= k < |r| :: r[k] != "" && Contains(s, r[k])
  {
    var sp := Spans(pat, s, 0);
    var r := seq(|sp|, k requires 0 <= k < |sp| => s[sp[k].0..sp[k].1]);
    forall k | 0 <= k < |r| ensures Contains(s, r[k]) {
      SliceIsContained(s, sp[k].0, sp[k].1);
    }
    r
  }

  // ---------------------------------------------------------------------
  // parseInt(str, 10)
  // ---------------------------------------------------------------------

  function DigitValue(c: char): (v: int)
    requires IsDigit(c)
    ensures 0 <= v <= 9
  {
    c as int - '0' as int
  }

  /** The number the decimal digits `s[lo..hi]` denote. */
  function DigitsValue(s: string, lo: nat, hi: nat): (v: nat)
    requires lo <= hi <= |s|
    requires forall i | lo <= i < hi :: IsDigit(s[i])
    decreases hi - lo
  {
    if hi == lo then 0 else DigitsValue(s, lo, hi - 1) * 10 + DigitValue(s[hi - 1])
  }

  /**
   * `parseInt(str, 10)`: skip leading white space, read an optional sign
   * and then the longest run of decimal digits; None stands for NaN (no
   * digit).  Exact integers stand for the double; the one comparison it
   * feeds (against 0 and 50) is not changed by rounding to a double.
   */
  function ParseInt(str: string): (r: Option<int>)
    ensures r.Some? ==> exists i | 0 <= i < |str| :: IsDigit(str[i])
    ensures var i := RunEnd(Space, str, 0);
            var j := if i < |str| && (str[i] == '-' || str[i] == '+') then i + 1 else i;
            && (r.None? <==> !(j < |str| && IsDigit(str[j])))
            && (r.Some? ==> r.value == (if str[i] == '-' then -1 else 1) * DigitsValue(str, j, RunEnd(Digit, str, j)))
  {
    var i := RunEnd(Space, str, 0);
    var signed := i < |str| && (str[i] == '-' || str[i] == '+');
    var j := if signed then i + 1 else i;
    var k := RunEnd(Digit, str, j);
    if k == j then None
    else
      var v: int := DigitsValue(str, j, k);
      assert IsDigit(str[j]);
      Some(if signed && str[i] == '-' then -v else v)
  }
}
