/**
 * The rule tables of the scorer: seniority detection, the experience
 * decision table, structure points, role-specific bonuses, years of
 * experience and the overqualification penalty.  Where the source
 * accumulates with `+=`, a method does the same and is proved equal to a
 * specification written as a table of (condition, points) rules.
 */
module Scoring {
  import opened Text
  import opened Regex

  function Min(a: int, b: int): int { if a <= b then a else b }

  function MinReal(a: real, b: real): real { if a <= b then a else b }

  /** One row of an additive table: `points` are added when `holds`. */
  datatype Rule = Rule(holds: bool, points: nat)

  /** The sum of the points of the rules that hold. */
  function Points(rules: seq<Rule>): nat {
    if rules == [] then 0
    else Points(rules[..|rules| - 1]) + (if rules[|rules| - 1].holds then rules[|rules| - 1].points else 0)
  }

  /** How many of `checks` hold. */
  function CountTrue(checks: seq<bool>): (n: nat)
    ensures n <= |checks|
  {
    if checks == [] then 0 else CountTrue(checks[..|checks| - 1]) + (if checks[|checks| - 1] then 1 else 0)
  }

  lemma PointsStep(rules: seq<Rule>, i: nat)
    requires i < |rules|
    ensures Points(rules[..i + 1]) == Points(rules[..i]) + (if rules[i].holds then rules[i].points else 0)
  {
    assert rules[..i + 1][..i] == rules[..i];
  }

  lemma CountTrueStep(checks: seq<bool>, i: nat)
    requires i < |checks|
    ensures CountTrue(checks[..i + 1]) == CountTrue(checks[..i]) + (if checks[i] then 1 else 0)
  {
    assert checks[..i + 1][..i] == checks[..i];
  }

  /** How many rules of a table hold. */
  function CountRules(rules: seq<Rule>): (n: nat)
    ensures n <= |rules|
  {
    if rules == [] then 0 else CountRules(rules[..|rules| - 1]) + (if rules[|rules| - 1].holds then 1 else 0)
  }

  /** In a table whose rules all carry `w` points, the total is `w` per rule that holds. */
  lemma {:induction false} PointsOfUniformTable(rules: seq<Rule>, w: nat)
    requires forall k | 0 <= k < |rules| :: rules[k].points == w
    ensures Points(rules) == w * CountRules(rules)
  {
    if rules != [] {
      PointsOfUniformTable(rules[..|rules| - 1], w);
    }
  }

  /** No rule holds exactly when none is counted. */
  lemma {:induction false} CountRulesZero(rules: seq<Rule>)
    ensures CountRules(rules) == 0 <==> forall k | 0 <= k < |rules| :: !rules[k].holds
  {
    if rules != [] {
      var init := rules[..|rules| - 1];
      CountRulesZero(init);
      assert forall k | 0 <= k < |init| :: init[k] == rules[k];
    }
  }

  /** A table none of whose rules hold gives no points. */
  lemma {:induction false} PointsNoneHold(rules: seq<Rule>)
    requires forall k | 0 <= k < |rules| :: !rules[k].holds
    ensures Points(rules) == 0
  {
    if rules != [] {
      var init := rules[..|rules| - 1];
      assert forall k | 0 <= k < |init| :: init[k] == rules[k];
      PointsNoneHold(init);
    }
  }

  // ---------------------------------------------------------------------
  // Seniority
  // ---------------------------------------------------------------------

  const SeniorMarkers: seq<string> := ["senior", "lead", "architect"]
  const MidMarkers: seq<string> := ["mid", "intermediate", "2-5 years"]
  const JuniorMarkers: seq<string> := ["junior", "entry", "0-2 years"]

  /** `detectSeniorityLevel`: 3 senior, 2 mid, 1 junior, checked in that order; 2 when nothing is found. */
  function SeniorityLevel(text: string): (level: int)
    ensures 1 <= level <= 3
  {
    if ContainsAny(text, SeniorMarkers) then 3
    else if ContainsAny(text, MidMarkers) then 2
    else if ContainsAny(text, JuniorMarkers) then 1
    else 2
  }

  /** Each level in terms of the marker lists, with the earlier lists taking priority. */
  lemma SeniorityPriority(text: string)
    ensures SeniorityLevel(text) == 3 <==> ContainsAny(text, SeniorMarkers)
    ensures SeniorityLevel(text) == 1
            <==> !ContainsAny(text, SeniorMarkers) && !ContainsAny(text, MidMarkers) && ContainsAny(text, JuniorMarkers)
    ensures SeniorityLevel(text) == 2
            <==> !ContainsAny(text, SeniorMarkers) && (ContainsAny(text, MidMarkers) || !ContainsAny(text, JuniorMarkers))
  {
  }

  lemma ContainsAnyExtends(s: string, words: seq<string>, u: string)
    requires ContainsAny(s, words)
    ensures ContainsAny(s + u, words) && ContainsAny(u + s, words)
  {
    var k :| 0 <= k < |words| && Contains(s, words[k]);
    ContainsExtends(s, words[k], u);
  }

  /** A senior marker anywhere wins: adding text around a senior text keeps it senior. */
  lemma SeniorStaysSenior(s: string, u: string)
    requires SeniorityLevel(s) == 3
    ensures SeniorityLevel(s + u) == 3 && SeniorityLevel(u + s) == 3
  {
    ContainsAnyExtends(s, SeniorMarkers, u);
  }

  // ---------------------------------------------------------------------
  // Experience score
  // ---------------------------------------------------------------------

  const ExperienceIndicators: seq<string> := ["years", "experience", "worked", "developed", "built", "created"]
  const RelevantSkills: seq<string> := ["mern", "react", "node.js", "express.js"]

  function Abs(x: int): nat { if x < 0 then -x else x }

  /** `calculateExperienceScore`: the decision table on the two seniority levels, first true branch wins. */
  function ExperienceScore(resume: string, job: string): (score: int)
    ensures score in {5, 10, 15, 25}
    ensures score == 25 <==> SeniorityLevel(resume) == SeniorityLevel(job)
  {
    var jobSeniority := SeniorityLevel(job);
    var resumeSeniority := SeniorityLevel(resume);
    if jobSeniority == resumeSeniority then 25
    else if Abs(jobSeniority - resumeSeniority) == 1 then 15
    else if ContainsAny(resume, RelevantSkills) && resumeSeniority > jobSeniority then 15
    else if ContainsAny(resume, ExperienceIndicators) then 10
    else 5
  }

  /**
   * The table by distance of the levels: one level apart gives 15; two
   * apart gives 15 only to a resume with a relevant skill whose level is
   * the higher one, and otherwise 10 or 5 by the experience indicators.
   */
  lemma ExperienceScoreByDistance(resume: string, job: string)
    ensures Abs(SeniorityLevel(resume) - SeniorityLevel(job)) == 1 ==> ExperienceScore(resume, job) == 15
    ensures Abs(SeniorityLevel(resume) - SeniorityLevel(job)) == 2 ==>
              ExperienceScore(resume, job)
              == if ContainsAny(resume, RelevantSkills) && SeniorityLevel(resume) > SeniorityLevel(job) then 15
                 else if ContainsAny(resume, ExperienceIndicators) then 10
                 else 5
  {
  }

  // ---------------------------------------------------------------------
  // Structure score
  // ---------------------------------------------------------------------

  const Sections: seq<string> := ["experience", "education", "skills", "projects"]

  /** `\d{3}-\d{3}-\d{4}` at `i`. */
  predicate PhoneAt(s: string, i: nat) {
    i + 12 <= |s|
    && (forall k | i <= k < i + 3 :: IsDigit(s[k])) && s[i + 3] == '-'
    && (forall k | i + 4 <= k < i + 7 :: IsDigit(s[k])) && s[i + 7] == '-'
    && (forall k | i + 8 <= k < i + 12 :: IsDigit(s[k]))
  }

  /** `/\d{3}-\d{3}-\d{4}/.test(s)` */
  predicate HasPhoneNumber(s: string)
    ensures HasPhoneNumber(s) ==> |s| >= 12
  {
    exists i | 0 <= i <= |s| :: PhoneAt(s, i)
  }

  /** A dash-separated number anywhere in the text counts, whatever surrounds it. */
  lemma PhoneNumberAnywhere(before: string, number: string, after: string)
    requires PhoneAt(number, 0)
    ensures HasPhoneNumber(before + number + after)
  {
    var s := before + number + after;
    assert forall k | 0 <= k < 12 :: s[|before| + k] == number[k];
    assert PhoneAt(s, |before|);
  }

  function SectionChecks(resume: string): (checks: seq<bool>)
    ensures |checks| == |Sections|
    ensures forall i | 0 <= i < |Sections| :: checks[i] == Contains(resume, Sections[i])
  {
    seq(|Sections|, i requires 0 <= i < |Sections| => Contains(resume, Sections[i]))
  }

  /** The six checks: four section names, a contact address, a phone number. */
  function StructureChecks(resume: string): seq<bool> {
    SectionChecks(resume)
    + [Contains(resume, "@") || Contains(resume, "email"),
       Contains(resume, "phone") || HasPhoneNumber(resume)]
  }

  /** `calculateStructureScore` as a value: 2.5 per satisfied check, capped at 15. */
  function StructureScore(resume: string): (score: real)
    ensures 0.0 <= score <= 15.0
  {
    MinReal(15.0, 2.5 * CountTrue(StructureChecks(resume)) as real)
  }

  /** There are six checks, so the cap of 15 never bites: the score is exactly 2.5 per check. */
  lemma StructureScoreIsPerCheck(resume: string)
    ensures StructureScore(resume) == 2.5 * CountTrue(StructureChecks(resume)) as real
    ensures 0.0 <= StructureScore(resume) <= 15.0
  {
    assert |StructureChecks(resume)| == 6;
  }

  /** `calculateStructureScore`: `score += 2.5` for each section found, then the two contact checks. */
  method CalculateStructureScore(resume: string) returns (score: real)
    ensures score == StructureScore(resume)
  {
    score := 0.0;
    var checks := SectionChecks(resume);
    for i := 0 to |Sections|
      invariant score == 2.5 * CountTrue(checks[..i]) as real
    {
      assert checks[..i + 1][..i] == checks[..i];
      if Contains(resume, Sections[i]) {
        score := score + 2.5;
      }
    }
    var contact := Contains(resume, "@") || Contains(resume, "email");
    var phone := Contains(resume, "phone") || HasPhoneNumber(resume);
    if contact {
      score := score + 2.5;
    }
    if phone {
      score := score + 2.5;
    }
    var all := StructureChecks(resume);
    assert checks[..|Sections|] == checks == all[..4];
    CountTrueStep(all, 4);
    CountTrueStep(all, 5);
    assert all[..6] == all;
    score := MinReal(15.0, score);
  }

  // ---------------------------------------------------------------------
  // Role-specific score
  // ---------------------------------------------------------------------

  /** Both texts name the stack `term`. */
  predicate BothMention(resume: string, job: string, term: string) {
    Contains(job, term) && Contains(resume, term)
  }

  /** The four bonus rules, 10 points each. */
  function RoleRules(resume: string, job: string): seq<Rule> {
    [Rule(BothMention(resume, job, "mern"), 10),
     Rule(BothMention(resume, job, "mean"), 10),
     Rule(BothMention(resume, job, "full stack"), 10),
     Rule(Contains(job, "react") && Contains(job, "node") && Contains(resume, "react") && Contains(resume, "node"), 10)]
  }

  /** `calculateRoleSpecificScore` as a value: the bonus points, capped at 20. */
  function RoleSpecificScore(resume: string, job: string): (score: int)
    ensures 0 <= score <= 20
  {
    Min(20, Points(RoleRules(resume, job)))
  }

  /** 10 per rule that holds, but at most 20: so 0, 10 or 20; the cap bites when three or four rules hold. */
  lemma {:induction false} RoleSpecificScoreValues(resume: string, job: string)
    ensures RoleSpecificScore(resume, job) == Min(20, 10 * CountRules(RoleRules(resume, job)))
    ensures RoleSpecificScore(resume, job) in {0, 10, 20}
    ensures RoleSpecificScore(resume, job) == 0 <==> forall k | 0 <= k < 4 :: !RoleRules(resume, job)[k].holds
  {
    var rules := RoleRules(resume, job);
    PointsOfUniformTable(rules, 10);
    CountRulesZero(rules);
  }

  /** `calculateRoleSpecificScore`: `score += 10` for each bonus, then the cap. */
  method CalculateRoleSpecificScore(resume: string, job: string) returns (score: int)
    ensures score == RoleSpecificScore(resume, job)
  {
    ghost var rules := RoleRules(resume, job);
    score := 0;
    assert rules[..0] == [];
    if Contains(job, "mern") && Contains(resume, "mern") {
      score := score + 10;
    }
    PointsStep(rules, 0);
    if Contains(job, "mean") && Contains(resume, "mean") {
      score := score + 10;
    }
    PointsStep(rules, 1);
    if Contains(job, "full stack") && Contains(resume, "full stack") {
      score := score + 10;
    }
    PointsStep(rules, 2);
    if Contains(job, "react") && Contains(job, "node") && Contains(resume, "react") && Contains(resume, "node") {
      score := score + 10;
    }
    PointsStep(rules, 3);
    assert rules[..4] == rules;
    score := Min(20, score);
  }

  // ---------------------------------------------------------------------
  // Years of experience
  // ---------------------------------------------------------------------

  /** The patterns of `extractYearsOfExperience`, in the order they are tried. */
  const YearPatterns: seq<Pattern> := [YearsOfExperience, ExperienceThenYears, YearsInField]

  /** `match[1]` of a non-empty match list, converted to a string for `parseInt`. */
  function SecondMatch(matches: seq<string>): string {
    if |matches| > 1 then matches[1] else "undefined"
  }

  /** What one pattern yields: the parsed `match[1]` if the pattern matched and it is in [0, 50]. */
  function YearsFrom(pat: Pattern, resume: string): (years: Option<int>)
    ensures years.Some? ==> 0 <= years.value <= 50
  {
    var matches := AllMatches(pat, resume);
    if |matches| == 0 then None
    else
      var parsed := ParseInt(SecondMatch(matches));
      if parsed.Some? && 0 <= parsed.value <= 50 then parsed else None
  }

  /** The first pattern from index `i` on that yields a value, else 0. */
  function FirstYears(resume: string, i: nat): (years: int)
    requires i <= |YearPatterns|
    decreases |YearPatterns| - i
    ensures 0 <= years <= 50
  {
    if i == |YearPatterns| then 0
    else match YearsFrom(YearPatterns[i], resume)
      case Some(y) => y
      case None => FirstYears(resume, i + 1)
  }

  /** `extractYearsOfExperience(resume)` as a value. */
  function ExperienceYears(resume: string): (years: int)
    ensures 0 <= years <= 50
  {
    FirstYears(resume, 0)
  }

  /** `extractYearsOfExperience`: the `for` loop over the patterns with an early return. */
  method ExtractYearsOfExperience(resume: string) returns (years: int)
    ensures years == ExperienceYears(resume)
  {
    for i := 0 to |YearPatterns|
      invariant FirstYears(resume, i) == ExperienceYears(resume)
    {
      var matches := AllMatches(YearPatterns[i], resume);
      if |matches| > 0 {
        var parsed := ParseInt(SecondMatch(matches));
        if parsed.Some? && 0 <= parsed.value <= 50 {
          return parsed.value;
        }
      }
    }
    return 0;
  }

  lemma UndefinedIsNaN()
    ensures ParseInt("undefined") == None
  {
    assert RunEnd(Space, "undefined", 0) == 0;
    assert RunEnd(Digit, "undefined", 0) == 0;
  }

  /**
   * Every whole match of `experience.*?(\d+)...` starts with the letters of
   * "experience", so `parseInt` of it is NaN: that pattern never yields.
   */
  lemma ExperienceThenYearsNeverYields(resume: string)
    ensures YearsFrom(ExperienceThenYears, resume) == None
  {
    var matches := AllMatches(ExperienceThenYears, resume);
    if |matches| > 1 {
      var sp := Spans(ExperienceThenYears, resume, 0);
      var m := matches[1];
      assert LitAt(resume, sp[1].0, "experience");
      assert Lower(m[..10]) == "experience" by {
        assert m[..10] == resume[sp[1].0..sp[1].0 + 10];
      }
      assert LowerChar(m[0]) == 'e';
      assert !IsSpace(m[0]) && !IsDigit(m[0]) && m[0] != '-' && m[0] != '+';
      assert RunEnd(Space, m, 0) == 0;
      assert RunEnd(Digit, m, 0) == 0;
    } else {
      UndefinedIsNaN();
    }
  }

  /** The pattern in the middle never contributes: the result comes from the first or the third. */
  lemma YearsSkipMiddlePattern(resume: string)
    ensures ExperienceYears(resume)
            == match YearsFrom(YearsOfExperience, resume)
               case Some(y) => y
               case None => match YearsFrom(YearsInField, resume)
                 case Some(y) => y
                 case None => 0
  {
    ExperienceThenYearsNeverYields(resume);
  }

  /** A text where each pattern matches at most once yields 0: `match[1]` is then undefined. */
  lemma SinglePhraseYieldsZero(resume: string)
    requires |AllMatches(YearsOfExperience, resume)| <= 1
    requires |AllMatches(YearsInField, resume)| <= 1
    ensures ExperienceYears(resume) == 0
  {
    UndefinedIsNaN();
    YearsSkipMiddlePattern(resume);
  }

  /** The longest run of class `k` inside a slice is the same run as in the whole string. */
  lemma RunEndInSlice(k: CharClass, s: string, p: nat, e: nat)
    requires p <= e <= |s|
    requires RunEnd(k, s, p) < e
    ensures RunEnd(k, s[p..e], 0) == RunEnd(k, s, p) - p
  {
    var r := RunEnd(k, s, p);
    var t := s[p..e];
    var rt := RunEnd(k, t, 0);
    assert forall i | 0 <= i < r - p :: InClass(k, t[i]) by {
      forall i | 0 <= i < r - p ensures InClass(k, t[i]) {
        assert t[i] == s[p + i];
      }
    }
    assert t[r - p] == s[r];
    assert !InClass(k, t[r - p]);
  }

  /** The value of the digit run at `p`: what `parseInt` reads from a match starting there. */
  function LeadingValue(s: string, p: nat): nat
    requires p <= |s|
  {
    DigitsValue(s, p, RunEnd(Digit, s, p))
  }

  /** The digits of a slice denote what they denote in the whole string. */
  lemma {:induction false} DigitsValueInSlice(s: string, p: nat, e: nat, lo: nat, hi: nat)
    requires p <= e <= |s| && lo <= hi <= e - p
    requires forall i | p + lo <= i < p + hi :: IsDigit(s[i])
    decreases hi - lo
    ensures forall i | lo <= i < hi :: s[p..e][i] == s[p + i]
    ensures DigitsValue(s[p..e], lo, hi) == DigitsValue(s, p + lo, p + hi)
  {
    if hi > lo {
      DigitsValueInSlice(s, p, e, lo, hi - 1);
    }
  }

  /** A whole match of the first or third pattern starts with its digits and goes on past them. */
  lemma DigitLedMatch(pat: Pattern, s: string, p: nat, e: nat)
    requires pat == YearsOfExperience || pat == YearsInField
    requires p <= |s|
    requires MatchEnd(pat, s, p) == Some(e)
    ensures p < |s| && IsDigit(s[p])
    ensures RunEnd(Digit, s, p) < e
  {
    var d := RunEnd(Digit, s, p);
    var ends := UnitEnds(s, RunEnd(Space, s, d));
    assert FirstUnitEnd(pat, s, ends, 0) == Some(e);
  }

  /** `parseInt` of a string that starts with a digit reads its leading digits. */
  lemma ParseDigitLed(m: string)
    requires |m| > 0 && IsDigit(m[0])
    ensures ParseInt(m) == Some(LeadingValue(m, 0) as int)
  {
    assert RunEnd(Space, m, 0) == 0;
  }

  /**
   * The value a pattern of the form `(\d+)\s*(?:years?|yrs?)...` yields: the
   * leading integer of its SECOND whole match, if it is at most 50.
   */
  lemma YearsFromSecondMatch(pat: Pattern, resume: string)
    requires pat == YearsOfExperience || pat == YearsInField
    ensures YearsFrom(pat, resume)
            == var sp := Spans(pat, resume, 0);
               if |sp| < 2 then None
               else
                 var v := LeadingValue(resume, sp[1].0);
                 if v <= 50 then Some(v as int) else None
  {
    var sp := Spans(pat, resume, 0);
    if |sp| < 2 {
      UndefinedIsNaN();
    } else {
      SecondMatchParses(pat, resume);
    }
  }

  /** The leading integer of a match read from the match alone is the one read in the whole text. */
  lemma LeadingValueInSlice(s: string, p: nat, e: nat)
    requires p <= e <= |s|
    requires RunEnd(Digit, s, p) < e
    ensures LeadingValue(s[p..e], 0) == LeadingValue(s, p)
  {
    var d := RunEnd(Digit, s, p);
    RunEndInSlice(Digit, s, p, e);
    DigitsValueInSlice(s, p, e, 0, d - p);
  }

  lemma SecondMatchParses(pat: Pattern, resume: string)
    requires pat == YearsOfExperience || pat == YearsInField
    requires |Spans(pat, resume, 0)| >= 2
    ensures ParseInt(SecondMatch(AllMatches(pat, resume)))
            == Some(LeadingValue(resume, Spans(pat, resume, 0)[1].0) as int)
  {
    var sp := Spans(pat, resume, 0);
    var p, e := sp[1].0, sp[1].1;
    var m := AllMatches(pat, resume)[1];
    assert m == resume[p..e];
    DigitLedMatch(pat, resume, p, e);
    LeadingValueInSlice(resume, p, e);
    assert m[0] == resume[p];
    ParseDigitLed(m);
  }

  // ---------------------------------------------------------------------
  // Overqualification penalty
  // ---------------------------------------------------------------------

  /** The five penalty rules, in source order. */
  function PenaltyRules(resume: string, job: string): seq<Rule> {
    var resumeYears := ExperienceYears(resume);
    var jobSeniority := SeniorityLevel(job);
    var resumeSeniority := SeniorityLevel(resume);
    [Rule(resumeSeniority == 3 && jobSeniority <= 1, 15),
     Rule(resumeSeniority == 2 && jobSeniority == 0, 10),
     Rule(resumeYears >= 5 && (Contains(job, "intern") || Contains(job, "junior")), 10),
     Rule(resumeYears >= 3 && Contains(job, "intern"), 8),
     Rule(Contains(resume, "senior") && (Contains(job, "junior") || Contains(job, "intern")), 7)]
  }

  /** `calculateOverqualificationPenalty` as a value: the points of the rules that hold, capped at 20. */
  function OverqualificationPenalty(resume: string, job: string): (penalty: int)
    ensures 0 <= penalty <= 20
  {
    Min(20, Points(PenaltyRules(resume, job)))
  }

  /** The rule for a mid-level resume against a level-0 job can never hold: no text has level 0. */
  lemma MidRuleNeverHolds(resume: string, job: string)
    ensures !PenaltyRules(resume, job)[1].holds
  {
  }

  /** Words whose absence from the job text rules out every penalty. */
  const EntryLevelWords: seq<string> := ["junior", "intern", "entry", "0-2 years"]

  /** No penalty for a job text without any of "junior", "intern", "entry", "0-2 years". */
  lemma NoPenaltyWithoutEntryLevelWords(resume: string, job: string)
    requires !ContainsAny(job, EntryLevelWords)
    ensures OverqualificationPenalty(resume, job) == 0
  {
    assert !Contains(job, "junior") by { assert EntryLevelWords[0] == "junior"; }
    assert !Contains(job, "intern") by { assert EntryLevelWords[1] == "intern"; }
    assert !Contains(job, "entry") by { assert EntryLevelWords[2] == "entry"; }
    assert !Contains(job, "0-2 years") by { assert EntryLevelWords[3] == "0-2 years"; }
    assert !ContainsAny(job, JuniorMarkers);
    assert SeniorityLevel(job) >= 2;
    var rules := PenaltyRules(resume, job);
    assert forall k | 0 <= k < |rules| :: !rules[k].holds;
    PointsNoneHold(rules);
  }

  /** `calculateOverqualificationPenalty`: `penalty += ...` for each rule that holds, then the cap. */
  method CalculateOverqualificationPenalty(resume: string, job: string) returns (penalty: int)
    ensures penalty == OverqualificationPenalty(resume, job)
  {
    var resumeYears := ExtractYearsOfExperience(resume);
    var jobSeniority := SeniorityLevel(job);
    var resumeSeniority := SeniorityLevel(resume);
    ghost var rules := PenaltyRules(resume, job);
    penalty := 0;
    assert rules[..0] == [];
    if resumeSeniority == 3 && jobSeniority <= 1 {
      penalty := penalty + 15;
    }
    PointsStep(rules, 0);
    if resumeSeniority == 2 && jobSeniority == 0 {
      penalty := penalty + 10;
    }
    PointsStep(rules, 1);
    if resumeYears >= 5 && (Contains(job, "intern") || Contains(job, "junior")) {
      penalty := penalty + 10;
    }
    PointsStep(rules, 2);
    if resumeYears >= 3 && Contains(job, "intern") {
      penalty := penalty + 8;
    }
    PointsStep(rules, 3);
    if Contains(resume, "senior") && (Contains(job, "junior") || Contains(job, "intern")) {
      penalty := penalty + 7;
    }
    PointsStep(rules, 4);
    assert rules[..5] == rules;
    penalty := Min(20, penalty);
  }
}
