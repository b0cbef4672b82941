/**
 * The entry points of the scorer: `calculateATSScore`, the diagnostic
 * `getDetailedAnalysis` that recomputes the same total with its parts, and
 * the threshold lookup `getScoreInterpretation`.
 */
module Ats {
  import opened Text
  import opened Keywords
  import opened Scoring

  function Max(a: int, b: int): int { if a >= b then a else b }

  /** `Math.round`: the nearest integer, halves rounded up. */
  function Round(x: real): (n: int)
    ensures n as real - 0.5 <= x < n as real + 0.5
  {
    (x + 0.5).Floor
  }

  /** Rounding keeps an integer as it is. */
  lemma RoundOfInteger(n: int)
    ensures Round(n as real) == n
  {
  }

  /** Rounding keeps a value inside integer bounds it already lies in. */
  lemma RoundWithin(x: real, lo: int, hi: int)
    requires lo as real <= x <= hi as real
    ensures lo <= Round(x) <= hi
  {
  }

  /** `Math.max(0, Math.min(100, n))` */
  function ClampScore(n: int): (r: int)
    ensures 0 <= r <= 100
    ensures 0 <= n <= 100 ==> r == n
  {
    Max(0, Min(100, n))
  }

  /** `jobKeywords.filter(k => resumeKeywords.includes(k))` */
  function Shared(jobKeywords: seq<string>, resumeKeywords: seq<string>): (matched: seq<string>)
    ensures |matched| <= |jobKeywords|
    ensures forall k :: k in matched <==> k in jobKeywords && k in resumeKeywords
  {
    if jobKeywords == [] then []
    else
      var rest := Shared(jobKeywords[1..], resumeKeywords);
      assert forall k :: k in jobKeywords <==> k == jobKeywords[0] || k in jobKeywords[1..];
      if jobKeywords[0] in resumeKeywords then [jobKeywords[0]] + rest else rest
  }

  /** Every job keyword survives the filter when the resume holds all of them. */
  lemma {:induction false} SharedWithSuperset(jobKeywords: seq<string>, resumeKeywords: seq<string>)
    requires forall k | k in jobKeywords :: k in resumeKeywords
    ensures Shared(jobKeywords, resumeKeywords) == jobKeywords
  {
    if jobKeywords != [] {
      SharedWithSuperset(jobKeywords[1..], resumeKeywords);
    }
  }

  /** The share of the job keywords that the resume keywords also hold, scaled to 50. */
  function KeywordMatchScore(jobKeywords: seq<string>, resumeKeywords: seq<string>): (score: real)
    ensures 0.0 <= score <= 50.0
  {
    ScaledShare(|Shared(jobKeywords, resumeKeywords)|, Max(|jobKeywords|, 1))
  }

  /** `(part / total) * 50` */
  function ScaledShare(part: nat, total: nat): (score: real)
    requires 0 < total && part <= total
    ensures 0.0 <= score <= 50.0
    ensures part == 0 <==> score == 0.0
    ensures part == total <==> score == 50.0
  {
    (part as real / total as real) * 50.0
  }

  /** A resume holding every job keyword gets the full 50 points, unless the job has no keyword. */
  lemma KeywordFullMatch(jobKeywords: seq<string>, resumeKeywords: seq<string>)
    requires forall k | k in jobKeywords :: k in resumeKeywords
    ensures KeywordMatchScore(jobKeywords, resumeKeywords) == if jobKeywords == [] then 0.0 else 50.0
  {
    SharedWithSuperset(jobKeywords, resumeKeywords);
  }

  /** No keyword points exactly when no job keyword is among the resume keywords. */
  lemma KeywordNoMatch(jobKeywords: seq<string>, resumeKeywords: seq<string>)
    ensures KeywordMatchScore(jobKeywords, resumeKeywords) == 0.0
            <==> forall k | k in jobKeywords :: k !in resumeKeywords
  {
    var matched := Shared(jobKeywords, resumeKeywords);
    if matched != [] {
      assert matched[0] in matched;
    }
  }

  /** `calculateATSScore(resumeText, jobDescription)` */
  function CalculateATSScore(resumeText: string, jobDescription: string): (score: int)
    ensures 0 <= score <= 100
  {
    var resume := Lower(resumeText);
    var job := Lower(jobDescription);
    var jobKeywords := ExtractKeywords(job);
    var resumeKeywords := ExtractKeywords(resume);
    var keywordMatchScore := KeywordMatchScore(jobKeywords, resumeKeywords);
    var experienceScore := ExperienceScore(resume, job);
    var structureScore := StructureScore(resume);
    var roleSpecificScore := RoleSpecificScore(resume, job);
    var overqualificationPenalty := OverqualificationPenalty(resume, job);
    var finalScore := keywordMatchScore + experienceScore as real + structureScore
                      + roleSpecificScore as real - overqualificationPenalty as real;
    ClampScore(Round(finalScore))
  }

  /** The result of `getDetailedAnalysis`: the total and its five parts, each rounded. */
  datatype Analysis = Analysis(
    score: int,
    keywordMatch: int,
    experienceMatch: int,
    structureScore: int,
    roleSpecificScore: int,
    overqualificationPenalty: int)

  /**
   * `getDetailedAnalysis`: the same stages as `calculateATSScore`, written
   * out a second time; its total is the same score, and each part lies in
   * the range its stage promises.
   */
  function GetDetailedAnalysis(resumeText: string, jobDescription: string): (analysis: Analysis)
    ensures 0 <= analysis.score <= 100
    ensures 0 <= analysis.keywordMatch <= 50
    ensures analysis.experienceMatch in {5, 10, 15, 25}
    ensures 0 <= analysis.structureScore <= 15
    ensures analysis.roleSpecificScore in {0, 10, 20}
    ensures 0 <= analysis.overqualificationPenalty <= 20
  {
    var resume := Lower(resumeText);
    var job := Lower(jobDescription);
    var jobKeywords := ExtractKeywords(job);
    var resumeKeywords := ExtractKeywords(resume);
    var keywordMatch := KeywordMatchScore(jobKeywords, resumeKeywords);
    var experienceMatch := ExperienceScore(resume, job);
    var structureScore := StructureScore(resume);
    var roleSpecificScore := RoleSpecificScore(resume, job);
    var overqualificationPenalty := OverqualificationPenalty(resume, job);
    RoundWithin(keywordMatch, 0, 50);
    RoundOfInteger(experienceMatch);
    StructureScoreIsPerCheck(resume);
    RoundWithin(structureScore, 0, 15);
    RoleSpecificScoreValues(resume, job);
    RoundOfInteger(roleSpecificScore);
    RoundOfInteger(overqualificationPenalty);
    var score := ClampScore(Round(
      keywordMatch + experienceMatch as real + structureScore + roleSpecificScore as real
      - overqualificationPenalty as real));
    Analysis(
      score,
      Round(keywordMatch),
      Round(experienceMatch as real),
      Round(structureScore),
      Round(roleSpecificScore as real),
      Round(overqualificationPenalty as real))
  }

  /** The two entry points agree: the detailed analysis reports the score `calculateATSScore` computes. */
  lemma DetailedScoreAgrees(resumeText: string, jobDescription: string)
    ensures GetDetailedAnalysis(resumeText, jobDescription).score == CalculateATSScore(resumeText, jobDescription)
  {
  }

  /** A resume scored against itself as the job gets the full 50 keyword points, unless it has no keyword. */
  lemma SelfMatchKeywordPoints(text: string)
    ensures GetDetailedAnalysis(text, text).keywordMatch
            == if ExtractKeywords(Lower(text)) == [] then 0 else 50
  {
    KeywordFullMatch(ExtractKeywords(Lower(text)), ExtractKeywords(Lower(text)));
  }

  /** The unclamped total lies in [-15, 110], so both ends of the clamp can matter. */
  lemma TotalRange(resume: string, job: string, jobKeywords: seq<string>, resumeKeywords: seq<string>)
    ensures var total := KeywordMatchScore(jobKeywords, resumeKeywords) + ExperienceScore(resume, job) as real
                         + StructureScore(resume) + RoleSpecificScore(resume, job) as real
                         - OverqualificationPenalty(resume, job) as real;
            -15.0 <= total <= 110.0
  {
    StructureScoreIsPerCheck(resume);
    RoleSpecificScoreValues(resume, job);
  }

  /**
   * Rounding and clamping to [0, 100] commute, so rounding first (as the
   * source does) gives the same integer as clamping first.
   */
  lemma RoundAndClampCommute(x: real)
    ensures ClampScore(Round(x)) == Round(if x < 0.0 then 0.0 else if x > 100.0 then 100.0 else x)
  {
    if x < 0.0 {
      assert Round(x) <= 0;
      assert Round(0.0) == 0;
    } else if x > 100.0 {
      assert Round(x) >= 100;
      assert Round(100.0) == 100;
    }
  }

  // ---------------------------------------------------------------------
  // getScoreInterpretation
  // ---------------------------------------------------------------------

  const ExceptionalMatch: string :=
    "\U{1F3AF}" + " **Exceptional Match** - Your resume is highly optimized for this position. Strong keyword alignment and relevant experience."
  const GoodMatch: string :=
    "\U{2705}" + " **Good Match** - Your resume shows good compatibility with the job requirements. Minor optimizations could improve your chances."
  const FairMatch: string :=
    "\U{26A0}\U{FE0F}" + " **Fair Match** - Your resume has moderate compatibility. Consider adding more relevant keywords and experience details."
  const PoorMatch: string :=
    "\U{274C}" + " **Poor Match** - Your resume needs significant improvements to better align with the job requirements."
  const VeryPoorMatch: string :=
    "\U{1F6AB}" + " **Very Poor Match** - Your resume requires major revisions to be considered for this position."

  /** `getScoreInterpretation`: the message of the highest threshold the score reaches. */
  function GetScoreInterpretation(score: int): (message: string)
    ensures message == ExceptionalMatch <==> score >= 90
    ensures message == VeryPoorMatch <==> score < 60
  {
    MessagesDistinct();
    if score >= 90 then ExceptionalMatch
    else if score >= 80 then GoodMatch
    else if score >= 70 then FairMatch
    else if score >= 60 then PoorMatch
    else VeryPoorMatch
  }

  /** The thresholds from the highest down, each with its message; below the last comes `VeryPoorMatch`. */
  const Bands: seq<(int, string)> := [(90, ExceptionalMatch), (80, GoodMatch), (70, FairMatch), (60, PoorMatch)]

  /**
   * The interpretation is a threshold lookup: a band's message exactly
   * when the score reaches its threshold and no higher one; the last
   * message exactly below every threshold.
   */
  lemma InterpretationIsThresholdLookup(score: int)
    ensures forall i | 0 <= i < |Bands| ::
              GetScoreInterpretation(score) == Bands[i].1
              <==> Bands[i].0 <= score && forall j | 0 <= j < i :: score < Bands[j].0
    ensures GetScoreInterpretation(score) == VeryPoorMatch <==> forall j | 0 <= j < |Bands| :: score < Bands[j].0
  {
    MessagesDistinct();
    assert Bands[0] == (90, ExceptionalMatch) && Bands[1] == (80, GoodMatch);
    assert Bands[2] == (70, FairMatch) && Bands[3] == (60, PoorMatch);
  }

  lemma MessagesDistinct()
    ensures forall i, j | 0 <= i < j < |Bands| :: Bands[i].1 != Bands[j].1
    ensures forall i | 0 <= i < |Bands| :: Bands[i].1 != VeryPoorMatch
  {
    assert ExceptionalMatch[0] != GoodMatch[0] && ExceptionalMatch[0] != FairMatch[0];
    assert ExceptionalMatch[0] != PoorMatch[0] && ExceptionalMatch[0] != VeryPoorMatch[0];
    assert GoodMatch[0] != FairMatch[0] && GoodMatch[0] != PoorMatch[0] && GoodMatch[0] != VeryPoorMatch[0];
    assert FairMatch[0] != PoorMatch[0] && FairMatch[0] != VeryPoorMatch[0];
    assert PoorMatch[0] != VeryPoorMatch[0];
  }

  /** A higher score never gets a worse message. */
  lemma InterpretationMonotone(low: int, high: int)
    requires low <= high
    ensures BandRank(GetScoreInterpretation(low)) <= BandRank(GetScoreInterpretation(high))
  {
    MessagesDistinct();
  }

  /** 0 for the lowest message up to 4 for the highest. */
  function BandRank(message: string): nat {
    if message == ExceptionalMatch then 4
    else if message == GoodMatch then 3
    else if message == FairMatch then 2
    else if message == PoorMatch then 1
    else 0
  }
}
