/**
 * Keyword extraction: first-match industry detection over an ordered
 * indicator table, the curated keyword list of that industry, the terms
 * the patterns and the synonym table pull out of the text itself, and the
 * final de-duplication and "occurs in the text" filter.
 */
module Keywords {
  import opened Text
  import opened Regex

  // ---------------------------------------------------------------------
  // Sequence helpers: `[...new Set(xs)]` and `xs.filter(f)`
  // ---------------------------------------------------------------------

  predicate NoDuplicates(xs: seq<string>) {
    forall i, j | 0 <= i < j < |xs| :: xs[i] != xs[j]
  }

  /** `[...new Set(xs)]`: each element once. */
  function Dedupe(xs: seq<string>): (r: seq<string>)
    ensures NoDuplicates(r)
    ensures forall x :: x in r <==> x in xs
    ensures |r| <= |xs|
  {
    if xs == [] then []
    else
      var init := Dedupe(xs[..|xs| - 1]);
      var last := xs[|xs| - 1];
      assert forall x :: x in xs <==> x in xs[..|xs| - 1] || x == last;
      if last in init then init else init + [last]
  }

  /** `xs.filter(keep)` */
  function Filter(xs: seq<string>, keep: string -> bool): (r: seq<string>)
    ensures forall x :: x in r <==> x in xs && keep(x)
    ensures NoDuplicates(xs) ==> NoDuplicates(r)
    ensures |r| <= |xs|
  {
    if xs == [] then []
    else
      var rest := Filter(xs[1..], keep);
      assert forall x :: x in xs <==> x == xs[0] || x in xs[1..];
      if keep(xs[0]) then
        assert NoDuplicates(xs) ==> xs[0] !in xs[1..];
        [xs[0]] + rest
      else rest
  }

  // ---------------------------------------------------------------------
  // Industry detection
  // ---------------------------------------------------------------------

  datatype Industry =
    | Tech | Design | Marketing | Finance | Healthcare | Sales
    | HumanResources | Education | Legal | Operations | General

  /** The indicator table, in the order it is scanned. */
  const IndustryIndicators: seq<(Industry, seq<string>)> := [
    (Tech, ["software", "developer", "engineer", "programming", "coding", "technical"]),
    (Design, ["designer", "ui/ux", "creative", "visual", "graphics", "brand"]),
    (Marketing, ["marketing", "social media", "seo", "campaigns", "advertising"]),
    (Finance, ["financial", "accounting", "banking", "investment", "audit"]),
    (Healthcare, ["medical", "healthcare", "clinical", "patient", "hospital"]),
    (Sales, ["sales", "business development", "account", "client", "revenue"]),
    (HumanResources, ["human resources", "recruitment", "talent", "hiring", "people"]),
    (Education, ["education", "teaching", "training", "curriculum", "learning"]),
    (Legal, ["legal", "attorney", "lawyer", "compliance", "regulatory"]),
    (Operations, ["operations", "logistics", "supply chain", "process", "management"])
  ]

  /** Each industry has one row and `General` has none. */
  lemma IndustryTableWellFormed()
    ensures forall j | 0 <= j < |IndustryIndicators| :: IndustryIndicators[j].0 != General
    ensures forall j, l | 0 <= j < l < |IndustryIndicators| :: IndustryIndicators[j].0 != IndustryIndicators[l].0
  {
  }

  /** The industry of the first row from `i` on with an indicator in `text`. */
  function FirstIndustry(text: string, i: nat): Industry
    requires i <= |IndustryIndicators|
    decreases |IndustryIndicators| - i
  {
    if i == |IndustryIndicators| then General
    else if ContainsAny(text, IndustryIndicators[i].1) then IndustryIndicators[i].0
    else FirstIndustry(text, i + 1)
  }

  /** `detectIndustry(text)` as a value. */
  function IndustryOf(text: string): (industry: Industry)
    ensures industry == General <==> forall j | 0 <= j < |IndustryIndicators| :: !ContainsAny(text, IndustryIndicators[j].1)
  {
    FirstIndustryIsFirstMatch(text, 0);
    FirstIndustry(text, 0)
  }

  /** `detectIndustry`: the `for` loop over the table with an early return. */
  method DetectIndustry(text: string) returns (industry: Industry)
    ensures industry == IndustryOf(text)
  {
    for i := 0 to |IndustryIndicators|
      invariant FirstIndustry(text, i) == IndustryOf(text)
    {
      var row := IndustryIndicators[i];
      if ContainsAny(text, row.1) {
        return row.0;
      }
    }
    return General;
  }

  lemma {:induction false} FirstIndustryIsFirstMatch(text: string, i: nat)
    requires i <= |IndustryIndicators|
    decreases |IndustryIndicators| - i
    ensures FirstIndustry(text, i) == General
            <==> forall j | i <= j < |IndustryIndicators| :: !ContainsAny(text, IndustryIndicators[j].1)
    ensures forall j | i <= j < |IndustryIndicators| ::
              FirstIndustry(text, i) == IndustryIndicators[j].0
              <==> ContainsAny(text, IndustryIndicators[j].1)
                   && forall l | i <= l < j :: !ContainsAny(text, IndustryIndicators[l].1)
  {
    IndustryTableWellFormed();
    if i < |IndustryIndicators| {
      FirstIndustryIsFirstMatch(text, i + 1);
    }
  }

  /**
   * The detected industry is that of the first row, in table order, with
   * an indicator occurring in the text; `General` exactly when no row has.
   */
  lemma IndustryIsFirstMatch(text: string)
    ensures IndustryOf(text) == General
            <==> forall j | 0 <= j < |IndustryIndicators| :: !ContainsAny(text, IndustryIndicators[j].1)
    ensures forall j | 0 <= j < |IndustryIndicators| ::
              IndustryOf(text) == IndustryIndicators[j].0
              <==> ContainsAny(text, IndustryIndicators[j].1)
                   && forall l | 0 <= l < j :: !ContainsAny(text, IndustryIndicators[l].1)
  {
    FirstIndustryIsFirstMatch(text, 0);
  }

  // ---------------------------------------------------------------------
  // Curated keyword lists
  // ---------------------------------------------------------------------

  const GeneralKeywords: seq<string> := [
    "leadership", "communication", "project management", "problem solving",
    "team work", "time management", "customer service", "microsoft office"
  ]

  /** The industries with a curated list of their own. */
  predicate HasOwnKeywords(industry: Industry) {
    industry in {Tech, Design, Marketing, Finance, Healthcare, Sales}
  }

  /** `getIndustryKeywords`: the curated list, or the general one when the industry has none. */
  function IndustryKeywords(industry: Industry): (keywords: seq<string>)
    ensures keywords != []
  {
    match industry
    case Tech => [
      "javascript", "python", "java", "react", "node.js", "sql", "git", "aws", "docker",
      "api", "database", "frontend", "backend", "fullstack", "agile", "scrum"]
    case Design => [
      "figma", "sketch", "photoshop", "illustrator", "ui/ux", "prototyping", "wireframing",
      "user research", "design thinking", "accessibility", "responsive design"]
    case Marketing => [
      "seo", "sem", "ppc", "google ads", "facebook ads", "email marketing", "crm",
      "analytics", "conversion optimization", "content marketing", "social media"]
    case Finance => [
      "financial analysis", "excel", "quickbooks", "sap", "accounting", "budgeting",
      "forecasting", "audit", "compliance", "financial modeling", "risk management"]
    case Healthcare => [
      "patient care", "medical records", "hipaa", "clinical", "ehr", "emr",
      "medical coding", "healthcare", "nursing", "telemedicine"]
    case Sales => [
      "crm", "salesforce", "lead generation", "pipeline management", "negotiation",
      "account management", "business development", "revenue growth"]
    case _ => GeneralKeywords
  }

  /** Exactly the industries without a list of their own fall back to the general list. */
  lemma IndustryKeywordsFallback(industry: Industry)
    ensures IndustryKeywords(industry) != []
    ensures IndustryKeywords(industry) == GeneralKeywords <==> !HasOwnKeywords(industry)
  {
  }

  // ---------------------------------------------------------------------
  // Terms taken from the text itself
  // ---------------------------------------------------------------------

  /** The patterns of `extractFromText`, in order. */
  const TextPatterns: seq<Pattern> := [DottedName, Acronym, QualifiedPhrase]

  /** The synonym table: a canonical term is added when any of its synonyms occurs. */
  const Synonyms: seq<(string, seq<string>)> := [
    ("restful apis", ["rest apis", "api", "restful"]),
    ("problem solving", ["problem-solving", "troubleshooting", "debugging"]),
    ("eagerness to learn", ["motivated", "enthusiastic", "quick learner"])
  ]

  function LowerAll(ms: seq<string>): (r: seq<string>)
    ensures |r| == |ms|
    ensures forall k | 0 <= k < |ms| :: r[k] == Lower(ms[k])
  {
    seq(|ms|, k requires 0 <= k < |ms| => Lower(ms[k]))
  }

  /** The lower-cased matches of the first `n` patterns, pattern by pattern. */
  function PatternTerms(text: string, n: nat): seq<string>
    requires n <= |TextPatterns|
  {
    if n == 0 then [] else PatternTerms(text, n - 1) + LowerAll(AllMatches(TextPatterns[n - 1], text))
  }

  /** The canonical terms of the first `n` synonym rows whose synonyms occur in `text`. */
  function SynonymTerms(text: string, n: nat): (r: seq<string>)
    requires n <= |Synonyms|
    ensures forall t :: t in r <==> exists j | 0 <= j < n :: Synonyms[j].0 == t && ContainsAny(text, Synonyms[j].1)
  {
    if n == 0 then []
    else
      var (term, synonyms) := Synonyms[n - 1];
      SynonymTerms(text, n - 1) + (if ContainsAny(text, synonyms) then [term] else [])
  }

  /** `extractFromText(text)` as a value. */
  function TextTerms(text: string): (terms: seq<string>)
    ensures NoDuplicates(terms)
  {
    Dedupe(PatternTerms(text, |TextPatterns|) + SynonymTerms(text, |Synonyms|))
  }

  /** `extractFromText`: push every lower-cased match of each pattern, then the synonym terms. */
  method ExtractFromText(text: string) returns (terms: seq<string>)
    ensures terms == TextTerms(text)
  {
    var extracted: seq<string> := [];
    for i := 0 to |TextPatterns|
      invariant extracted == PatternTerms(text, i)
    {
      var matches := AllMatches(TextPatterns[i], text);
      extracted := extracted + LowerAll(matches);
    }
    ghost var fromPatterns := extracted;
    for j := 0 to |Synonyms|
      invariant extracted == fromPatterns + SynonymTerms(text, j)
    {
      var row := Synonyms[j];
      if ContainsAny(text, row.1) {
        extracted := extracted + [row.0];
      }
    }
    terms := Dedupe(extracted);
  }

  /** The two case-sensitive patterns look for ASCII capitals, so lower-cased text gives them nothing. */
  lemma CapitalPatternsFindNothing(text: string, pat: Pattern)
    requires IsLowered(text)
    requires pat == DottedName || pat == Acronym
    ensures AllMatches(pat, text) == []
  {
  }

  /** Every term taken from lower-cased text occurs in it, or is a synonym row's canonical term. */
  lemma {:induction false} TextTermsOccur(text: string)
    requires IsLowered(text)
    ensures forall t | t in TextTerms(text) :: Contains(text, t) || t in SynonymTerms(text, |Synonyms|)
  {
    LowerOfLoweredSlices(text);
    forall t | t in PatternTerms(text, |TextPatterns|) ensures Contains(text, t) {
      PatternTermsOccur(text, |TextPatterns|, t);
    }
  }

  lemma LowerOfLoweredSlices(text: string)
    requires IsLowered(text)
    ensures forall i, j | 0 <= i <= j <= |text| :: Lower(text[i..j]) == text[i..j]
  {
    forall i, j | 0 <= i <= j <= |text| ensures Lower(text[i..j]) == text[i..j] {
      LowerOfLowered(text[i..j]);
    }
  }

  lemma {:induction false} PatternTermsOccur(text: string, n: nat, t: string)
    requires IsLowered(text)
    requires n <= |TextPatterns|
    requires t in PatternTerms(text, n)
    ensures Contains(text, t)
  {
    if t in PatternTerms(text, n - 1) {
      PatternTermsOccur(text, n - 1, t);
    } else {
      var ms := AllMatches(TextPatterns[n - 1], text);
      var k :| 0 <= k < |ms| && t == LowerAll(ms)[k];
      var sp := Spans(TextPatterns[n - 1], text, 0);
      LowerOfLowered(text[sp[k].0..sp[k].1]);
    }
  }

  // ---------------------------------------------------------------------
  // extractKeywords
  // ---------------------------------------------------------------------

  /**
   * `extractKeywords(text)`: the curated list of the detected industry and
   * the extracted terms, de-duplicated, keeping only those that occur in
   * the lower-cased text.
   */
  function ExtractKeywords(text: string): (keywords: seq<string>)
    ensures NoDuplicates(keywords)
    ensures forall k :: k in keywords
              <==> (k in IndustryKeywords(IndustryOf(Lower(text))) || k in TextTerms(Lower(text)))
                   && Contains(Lower(text), k)
  {
    var lowerText := Lower(text);
    var relevant := IndustryKeywords(IndustryOf(lowerText));
    var extracted := TextTerms(lowerText);
    var all := Dedupe(relevant + extracted);
    Filter(all, k => Contains(lowerText, k))
  }

  /** Keywords are lower case: each occurs in the lower-cased text. */
  lemma KeywordsAreLowered(text: string)
    ensures forall k | k in ExtractKeywords(text) :: IsLowered(k)
  {
    LowerIsLowered(text);
    forall k | k in ExtractKeywords(text) ensures IsLowered(k) {
      var i :| 0 <= i <= |Lower(text)| && OccursAt(Lower(text), k, i);
      assert forall m | 0 <= m < |k| :: k[m] == Lower(text)[i + m];
    }
  }

  /** Empty text yields no keyword: nothing but the empty string occurs in it, and no list holds that. */
  lemma EmptyTextHasNoKeywords()
    ensures ExtractKeywords("") == []
  {
    var keywords := ExtractKeywords("");
    if keywords != [] {
      var k := keywords[0];
      assert Lower("") == "";
      assert Contains("", k);
      assert k == "";
      CuratedNonEmpty(IndustryOf(""));
      TextTermsNonEmpty("");
      assert false;
    }
  }

  lemma CuratedNonEmpty(industry: Industry)
    ensures "" !in IndustryKeywords(industry)
  {
  }

  /** No extracted term is the empty string. */
  lemma TextTermsNonEmpty(text: string)
    ensures "" !in TextTerms(text)
  {
    PatternTermsNonEmpty(text, |TextPatterns|);
  }

  lemma {:induction false} PatternTermsNonEmpty(text: string, n: nat)
    requires n <= |TextPatterns|
    ensures "" !in PatternTerms(text, n)
  {
    if n > 0 {
      PatternTermsNonEmpty(text, n - 1);
      var ms := AllMatches(TextPatterns[n - 1], text);
      assert forall k | 0 <= k < |ms| :: |LowerAll(ms)[k]| == |ms[k]| > 0;
    }
  }
}
