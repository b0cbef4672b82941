# ATS resume scorer — a Dafny model

This project models the resume scorer of a resume-analysis web application. The scorer compares a resume's text with a job description and produces a compatibility score from 0 to 100, which the application calls an "ATS score" after the applicant tracking systems that screen resumes. It also produces a per-stage breakdown of that score and a one-line verdict for it. The model covers the whole of `app/api/resume/service/AtsService.ts`:

- **keyword matching**:
  - industry detection from indicator words;
  - the curated keyword list of the detected industry;
  - terms pulled out of the text by three regular expressions;
  - a synonym table;
  - de-duplication and filtering.
- **experience scoring** from three seniority levels;
- **structure scoring** from section names and contact details;
- **role-specific scoring** from technology-stack mentions;
- **overqualification penalty**, including the "years of experience" extractor;
- **the total**: rounding and clamping to 0..100;
- **the detailed analysis** and **the score interpretation**.

Modules, in dependency order:

- `Text` (`text.dfy`): ASCII lower-casing and substring containment (`includes`).
- `Regex` (`regex.dfy`): the six regular expressions the scorer uses.
  - Each is matched at a position with JavaScript's backtracking order.
  - Global matching (`String.prototype.match` with the `g` flag) collects successive leftmost, non-overlapping matches.
  - `parseInt` returns `None` for NaN.
- `Keywords` (`keywords.dfy`): `detectIndustry`, `getIndustryKeywords`, `extractFromText` and `extractKeywords`.
- `Scoring` (`scoring.dfy`):
  - `detectSeniorityLevel`;
  - `calculateExperienceScore`, `calculateStructureScore` and `calculateRoleSpecificScore`;
  - `extractYearsOfExperience` and `calculateOverqualificationPenalty`.
- `Ats` (`ats.dfy`): `calculateATSScore`, `getDetailedAnalysis` and `getScoreInterpretation`.

Source functions that are plain expressions become Dafny functions. Source functions that work step by step become methods, each proved equal to a specification function:

- `detectIndustry` and `extractYearsOfExperience` loop with an early `return`;
- `extractFromText` pushes into an array;
- `calculateStructureScore`, `calculateRoleSpecificScore` and `calculateOverqualificationPenalty` add with `score +=`.

The role-specific and penalty tables are written as lists of `Rule(holds, points)`. The structure table is a list of six checks, counted at 2.5 points each. The lemmas beside them say what the scores mean.

Behaviour of the code that the model keeps, where the code differs from what its authors evidently expected:

- **Years of experience.** In the source, `resume.match(pattern)` uses a global regular expression. With the `g` flag, `match` returns the list of whole matches, not the capture groups. So `match[1]` is the second whole match, or `undefined` when there is only one match.
  - `parseInt("undefined")` is NaN, so a resume with a single "5 years of experience" phrase yields 0 years (`Scoring.SinglePhraseYieldsZero`).
  - When there are two such phrases, the years come from the leading number of the second phrase (`Scoring.YearsFromSecondMatch`).
  - The middle pattern (`experience.*?N years`) always starts with the word "experience", so `parseInt` of its second match is always NaN. That pattern never decides the result (`Scoring.ExperienceThenYearsNeverYields`).
  - A single "5 years of experience" phrase might be expected to give 5, with the first matching pattern deciding. The code gives 0, and it moves on to the next pattern when the parsed value is NaN or outside 0..50. The model follows the code.
- **Dead penalty rule.** `detectSeniorityLevel` never returns 0. So the penalty rule "resume level 2 and job level 0" never applies (`Scoring.MidRuleNeverHolds`).
- **Upper-case patterns find nothing.** `extractFromText` gets text that is already lower-cased. The two upper-case patterns (`\b[A-Z][a-z]+\.[a-z]+\b` and `\b[A-Z]{2,}\b`) therefore never match (`Keywords.CapitalPatternsFindNothing`).

## Model

| member | source | states |
|---|---|---|
| Text.Lower | app/api/resume/service/AtsService.ts:12-13 | lower-casing keeps the length and maps each character on its own: ASCII capitals to their small letters, everything else unchanged |
| Text.LowerIsLowered | app/api/resume/service/AtsService.ts:110 | lower-casing already lower-cased text changes nothing, so the second `toLowerCase` in `extractKeywords` is harmless |
| Regex.MatchEnd | app/api/resume/service/AtsService.ts:88-90 | a match of any of the six patterns at a position is non-empty and ends inside the text |
| Regex.Spans | app/api/resume/service/AtsService.ts:94 | global matching returns in-bounds matches in increasing, non-overlapping order; each is a match at its start; and no match is skipped before the first one found |
| Regex.SpansComplete | app/api/resume/service/AtsService.ts:94 | global matching misses no match: every position where the pattern matches lies inside one of the spans found |
| Regex.AllMatches | app/api/resume/service/AtsService.ts:204 | `text.match(pattern)` with `g` gives exactly the matched substrings, each non-empty and contained in the text |
| Regex.ParseInt | app/api/resume/service/AtsService.ts:96 | `parseInt` is NaN exactly when no digit follows the leading white space and optional sign; otherwise it is the signed value of the digit run there |
| Scoring.ParseDigitLed | app/api/resume/service/AtsService.ts:96 | `parseInt` of a string that starts with a digit is the value of its leading digit run |
| Scoring.UndefinedIsNaN | app/api/resume/service/AtsService.ts:96 | `parseInt("undefined")` is NaN |
| Keywords.Dedupe | app/api/resume/service/AtsService.ts:117 | `[...new Set(xs)]` has no duplicates, keeps exactly the members of `xs`, and is no longer than `xs` |
| Keywords.Filter | app/api/resume/service/AtsService.ts:119 | `filter` keeps exactly the members that pass, keeps uniqueness, and never lengthens the list |
| Keywords.IndustryTableWellFormed | app/api/resume/service/AtsService.ts:126-137 | the ten indicator rows have distinct labels, none of them `general` |
| Keywords.IndustryOf | app/api/resume/service/AtsService.ts:125-146 | the detected industry is `general` exactly when no indicator row has a word in the text |
| Keywords.DetectIndustry | app/api/resume/service/AtsService.ts:125-146 | the loop over the indicator table returns the label of the first matching row (`IndustryOf`) |
| Keywords.FirstIndustryIsFirstMatch | app/api/resume/service/AtsService.ts:139-145 | scanning from row i gives a row's label exactly when that row matches and no row between i and it does; it gives `general` exactly when no row from i on matches |
| Keywords.IndustryIsFirstMatch | app/api/resume/service/AtsService.ts:139-145 | the detected industry is row j's label exactly when row j has an indicator in the text and no earlier row has one; it is `general` exactly when no row has one |
| Keywords.IndustryKeywords | app/api/resume/service/AtsService.ts:151-184 | every industry gets a non-empty keyword list |
| Keywords.IndustryKeywordsFallback | app/api/resume/service/AtsService.ts:183 | every industry gets a non-empty list; it is the general list exactly for the industries without a curated list of their own |
| Keywords.CuratedNonEmpty | app/api/resume/service/AtsService.ts:152-181 | no curated keyword is the empty string |
| Keywords.SynonymTerms | app/api/resume/service/AtsService.ts:209-213 | a canonical term is added exactly when one of its synonyms occurs in the text |
| Keywords.TextTerms | app/api/resume/service/AtsService.ts:215 | the extracted terms have no duplicates |
| Keywords.ExtractFromText | app/api/resume/service/AtsService.ts:189-216 | the pattern loop, the synonym loop and the de-duplication produce `TextTerms(text)` |
| Keywords.CapitalPatternsFindNothing | app/api/resume/service/AtsService.ts:191-192 | on lower-cased text the two upper-case patterns match nothing |
| Keywords.PatternTermsOccur | app/api/resume/service/AtsService.ts:203-206 | on lower-cased text every lower-cased pattern match occurs in the text |
| Keywords.TextTermsOccur | app/api/resume/service/AtsService.ts:203-213 | on lower-cased text every extracted term occurs in the text or is a synonym-table term |
| Keywords.TextTermsNonEmpty | app/api/resume/service/AtsService.ts:203-213 | no extracted term is the empty string |
| Keywords.ExtractKeywords | app/api/resume/service/AtsService.ts:109-120 | the keywords have no duplicates; a term is a keyword exactly when it is a curated keyword of the detected industry or an extracted term, and it occurs in the lower-cased text |
| Keywords.KeywordsAreLowered | app/api/resume/service/AtsService.ts:110-119 | every keyword is in lower case |
| Keywords.EmptyTextHasNoKeywords | app/api/resume/service/AtsService.ts:119 | empty text has no keywords |
| Scoring.SeniorityLevel | app/api/resume/service/AtsService.ts:235-240 | the level is 1, 2 or 3 |
| Scoring.SeniorityPriority | app/api/resume/service/AtsService.ts:235-240 | level 3 exactly when a senior marker occurs; level 1 exactly when only junior markers occur; level 2 otherwise, including the default |
| Scoring.SeniorStaysSenior | app/api/resume/service/AtsService.ts:236 | adding text on either side of a senior text keeps it senior |
| Scoring.ExperienceScore | app/api/resume/service/AtsService.ts:221-233 | the score is 5, 10, 15 or 25, and it is 25 exactly when the two seniority levels are equal |
| Scoring.ExperienceScoreByDistance | app/api/resume/service/AtsService.ts:229-232 | levels one apart give 15; levels two apart give 15 for relevant skills with the higher level on the resume, else 10 with an experience word, else 5 |
| Scoring.HasPhoneNumber | app/api/resume/service/AtsService.ts:252 | a text holding a `ddd-ddd-dddd` number is at least 12 characters long |
| Scoring.PhoneNumberAnywhere | app/api/resume/service/AtsService.ts:252 | a `ddd-ddd-dddd` number is found wherever it sits in the text |
| Scoring.StructureScore | app/api/resume/service/AtsService.ts:243-255 | the structure score lies in 0..15 |
| Scoring.StructureScoreIsPerCheck | app/api/resume/service/AtsService.ts:243-255 | there are six checks, so the cap never applies: the score is 2.5 per satisfied check and lies in 0..15 |
| Scoring.CalculateStructureScore | app/api/resume/service/AtsService.ts:243-255 | the `score += 2.5` loop computes `StructureScore` |
| Scoring.RoleSpecificScore | app/api/resume/service/AtsService.ts:47-62 | the role-specific score lies in 0..20 |
| Scoring.RoleSpecificScoreValues | app/api/resume/service/AtsService.ts:47-62 | the score is `min(20, 10 × rules that hold)`, so 0, 10 or 20; it is 0 exactly when no stack rule holds |
| Scoring.CalculateRoleSpecificScore | app/api/resume/service/AtsService.ts:47-62 | the four `score += 10` steps compute `RoleSpecificScore` |
| Scoring.YearsFrom | app/api/resume/service/AtsService.ts:94-99 | one pattern yields either nothing or a year count in 0..50 |
| Scoring.ExperienceYears | app/api/resume/service/AtsService.ts:86-104 | the extracted years lie in 0..50 |
| Scoring.ExtractYearsOfExperience | app/api/resume/service/AtsService.ts:86-104 | the pattern loop with its early return computes `ExperienceYears` |
| Scoring.YearsSkipMiddlePattern | app/api/resume/service/AtsService.ts:87-103 | the years come from the first pattern if it yields, else from the third, else 0 |
| Scoring.ExperienceThenYearsNeverYields | app/api/resume/service/AtsService.ts:89-97 | the `experience.*?N years` pattern never yields a year count |
| Scoring.SinglePhraseYieldsZero | app/api/resume/service/AtsService.ts:94-96 | with at most one match of the first and third patterns, the extracted years are 0 |
| Scoring.DigitLedMatch | app/api/resume/service/AtsService.ts:88-90 | a match of the first or third pattern starts with a digit run that ends inside the match |
| Scoring.YearsFromSecondMatch | app/api/resume/service/AtsService.ts:94-99 | the first and third patterns yield the leading number of their second match when it is at most 50, and nothing when there are fewer than two matches or the number is larger |
| Scoring.SecondMatchParses | app/api/resume/service/AtsService.ts:94-96 | `parseInt(match[1])` is the leading number of the second match |
| Scoring.OverqualificationPenalty | app/api/resume/service/AtsService.ts:67-81 | the penalty lies in 0..20 |
| Scoring.MidRuleNeverHolds | app/api/resume/service/AtsService.ts:75 | the "resume level 2, job level 0" rule never applies |
| Scoring.NoPenaltyWithoutEntryLevelWords | app/api/resume/service/AtsService.ts:74-78 | a job text without "junior", "intern", "entry" or "0-2 years" gives no penalty |
| Scoring.CalculateOverqualificationPenalty | app/api/resume/service/AtsService.ts:67-81 | the five `penalty +=` steps compute `OverqualificationPenalty` |
| Ats.Round | app/api/resume/service/AtsService.ts:41 | `Math.round` gives the integer within half a unit, with halves rounded up |
| Ats.RoundOfInteger | app/api/resume/service/AtsService.ts:299-302 | rounding an integer gives the same integer |
| Ats.RoundWithin | app/api/resume/service/AtsService.ts:298-302 | rounding keeps a value inside integer bounds it already lies in |
| Ats.ClampScore | app/api/resume/service/AtsService.ts:41 | the clamp lands in 0..100 and keeps values already in range |
| Ats.Shared | app/api/resume/service/AtsService.ts:20-22 | the matched keywords are exactly the job keywords that are also resume keywords |
| Ats.SharedWithSuperset | app/api/resume/service/AtsService.ts:20-22 | when the resume holds every job keyword, the filter keeps the whole job list |
| Ats.ScaledShare | app/api/resume/service/AtsService.ts:24 | `(part / total) × 50` lies in 0..50; it is 0 exactly for no part and 50 exactly for the whole |
| Ats.KeywordMatchScore | app/api/resume/service/AtsService.ts:24 | the keyword score lies in 0..50 |
| Ats.KeywordFullMatch | app/api/resume/service/AtsService.ts:20-24 | a resume holding every job keyword scores 50, or 0 when the job has no keywords |
| Ats.KeywordNoMatch | app/api/resume/service/AtsService.ts:20-24 | the keyword score is 0 exactly when no job keyword is a resume keyword |
| Ats.CalculateATSScore | app/api/resume/service/AtsService.ts:11-42 | the total lies in 0..100 |
| Ats.TotalRange | app/api/resume/service/AtsService.ts:38 | before clamping, the total lies in -15..110, so both ends of the clamp can matter |
| Ats.RoundAndClampCommute | app/api/resume/service/AtsService.ts:41 | rounding then clamping gives the same integer as clamping then rounding |
| Ats.GetDetailedAnalysis | app/api/resume/service/AtsService.ts:271-304 | the score lies in 0..100; the rounded parts lie in their stages' ranges: keywords 0..50, experience 5/10/15/25, structure 0..15, role 0/10/20, penalty 0..20 |
| Ats.DetailedScoreAgrees | app/api/resume/service/AtsService.ts:279-294 | the detailed analysis reports the same score as `calculateATSScore` |
| Ats.SelfMatchKeywordPoints | app/api/resume/service/AtsService.ts:282-285 | a text analysed against itself gets the full 50 keyword points, or 0 when it has no keywords |
| Ats.GetScoreInterpretation | app/api/resume/service/AtsService.ts:257-269 | the "exceptional" message is given exactly from 90 up, the "very poor" message exactly below 60 |
| Ats.InterpretationIsThresholdLookup | app/api/resume/service/AtsService.ts:257-269 | a verdict message is given exactly when the score reaches its threshold (90, 80, 70, 60) and no higher one; the "very poor" message exactly when the score is below 60 |
| Ats.InterpretationMonotone | app/api/resume/service/AtsService.ts:257-269 | a higher score never gets a worse verdict |

## Left out

- Lower-casing covers ASCII only. JavaScript's `toLowerCase` also maps non-ASCII capitals, and a few of them change length (`İ` becomes two characters). Every keyword, marker and pattern literal in the scorer is ASCII, so only texts with such capitals can differ.
- Strings are sequences of Unicode code points, not UTF-16 code units. This matters only for characters outside the Basic Multilingual Plane, which no pattern can match except as part of `.`.
- Numbers are exact reals, not IEEE-754 doubles. The only fractional values are multiples of 2.5 and the keyword ratio times 50. Rounding of doubles near a half could differ from exact rounding, which the model does not capture.
- Regex.ParseInt: does not model the double-precision rounding of very long digit runs. Any run whose value is above 50 is rejected either way.
- The interpretation takes an integer score, since its only caller passes the integer `calculateATSScore` returns; `Math.round` semantics for fractional input are not modelled there.
- The PDF text extraction, the web routes, the user interface and the database that call the scorer are outside this model; the scorer receives resume and job text as plain strings.
