# Resume analyser core in Dafny

A model of the two analysis utilities of a resume-scoring web service.

- **Section detection** (`SectionDetector.dfy`). `detect_sections` decides which of eight resume sections a text contains:
  - The contact section is found by an e-mail or phone-number regular expression.
  - Every other section is found by a keyword list searched in the lower-cased text.

  `extract_contact_details` reads the first e-mail address, phone number, LinkedIn profile and GitHub profile off the text.
- **Resume scoring** (`ResumeScorer.dfy`). `score_resume` runs five sub-scorers in order. Each returns its points and appends advice to one shared list of suggestions. The overall score is their sum. The sub-scorers are:
  - section completeness, 30 points;
  - length in words, 20 points;
  - action verbs and professional keywords, 20 points;
  - formatting, 15 points;
  - match against a job description, 15 points.

Supporting modules:
- `Text.dfy` holds the string operations the code relies on: `lower`, `title`, `in` on strings, `split`, `split('\n')`, `strip`.
- `Regex.dfy` holds the regular expressions.
  - A pattern is a sequence of elements (one character of a class, an optional one, or a starred one).
  - `Matches` is the language a pattern denotes.
  - `Run` is a backtracking matcher that tries the longest choice first, as Python's `re` does.
  - `Search` is `re.search`: it returns the leftmost start position and, there, the first match in priority order.
  - Soundness and completeness of `Run` against `Matches` are proved.
- `Wrappers.dfy` holds `Option`.

How the Python maps onto Dafny:
- The shared suggestion list is the class `ResumeScorer.SuggestionList`. Each sub-scorer is a method that `modifies` it.
- Each such method is proved equal to a function. That function gives the points and the appended advice as a value (`Scored`).
- The properties of the scoring rules are then proved about those functions.
- The sections dictionary is the record `SectionDetector.SectionMap`, with one flag per key.

## Model

| member | source | states |
|---|---|---|
| SectionDetector.DetectSections | backend/utils/section_detector.py:4-69 | each of the eight flags equals its own test: e-mail or phone match in the original text for contact_info, some keyword of the section's list in the lower-cased text for the others |
| SectionDetector.GetDetectedSections | backend/utils/section_detector.py:16-25 | the flag read under a section's key is exactly that section's detection test |
| SectionDetector.KeywordFlagIgnoresCase | backend/utils/section_detector.py:14 | detection gives the same answer for a text and its lower-cased form |
| SectionDetector.HeadingSetsFlag | backend/utils/section_detector.py:14-67 | a stretch of the original text that lower-cases to one of a section's keywords, whatever its letter case, has that section detected |
| SectionDetector.DetectedInSlice | backend/utils/section_detector.py:31-67 | a section detected in a slice of the text is detected in the whole text |
| SectionDetector.DetectedSectionsMonotone | backend/utils/section_detector.py:31-67 | every flag set for a slice of the text is set for the whole text |
| SectionDetector.PhoneDigitsSetPhone | backend/utils/section_detector.py:29 | every match of the core `\d{3}\)?[-.\s]?\d{3}[-.\s]?\d{4}` is a match of the whole phone pattern |
| SectionDetector.PhoneHasDigits | backend/utils/section_detector.py:29 | every phone match contains a match of the core `\d{3}\)?[-.\s]?\d{3}[-.\s]?\d{4}` |
| SectionDetector.PhoneOccursIff | backend/utils/section_detector.py:29-31 | the phone pattern occurs in a text exactly when its core without the optional country code occurs |
| SectionDetector.TenDigitsSetContact | backend/utils/section_detector.py:29-32 | ten consecutive digits anywhere in the text set the contact_info flag |
| SectionDetector.TopLevelDomainMatches | backend/utils/section_detector.py:28 | any two or more ASCII letters match `[a-zA-Z]{2,}` |
| SectionDetector.DomainMatches | backend/utils/section_detector.py:28 | a non-empty domain of letters, digits, dots and dashes, a dot and a letter-only top-level domain match the part after `@` |
| SectionDetector.EmailMatches | backend/utils/section_detector.py:28 | a non-empty local part of the allowed characters, `@` and a valid domain part match the e-mail pattern |
| SectionDetector.EmailSetsContact | backend/utils/section_detector.py:28-32 | a text containing such an address has the contact_info flag set |
| SectionDetector.ExampleEmailSetsContact | backend/utils/section_detector.py:28-32 | `john@example.com` sets the contact_info flag |
| SectionDetector.NoAtNoDigitNoContact | backend/utils/section_detector.py:28-32 | a text without `@` and without digits does not set the contact_info flag |
| SectionDetector.FirstMatch | backend/utils/section_detector.py:88-90 | the matched text is a match of the pattern found inside the text, and there is none exactly when the pattern occurs nowhere |
| SectionDetector.FirstMatchAt | backend/utils/section_detector.py:88-90 | `group(0)` is the match at the leftmost position where the pattern matches, and it ends where the engine's order of trials (greedy repetition, alternatives in order) first succeeds from there |
| SectionDetector.EmailRunWhole | backend/utils/section_detector.py:87-88 | the greedy e-mail match from the start of a text covers all of it when no shorter prefix ending before a non-letter holds both an `@` and a dot |
| SectionDetector.EmailExtractedWhole | backend/utils/section_detector.py:87-90 | under that condition a text that is an e-mail address is extracted whole |
| SectionDetector.ExampleEmailExtracted | backend/utils/section_detector.py:87-90 | `john@example.com` is extracted as `john@example.com`, not as a shorter match |
| SectionDetector.ExtractContactDetails | backend/utils/section_detector.py:72-110 | e-mail and phone are the first matches in the original text; LinkedIn and GitHub are the first matches in the lower-cased text; a missing match leaves None |
| SectionDetector.ContactFlagMatchesExtraction | backend/utils/section_detector.py:31-32 | the contact_info flag is set exactly when extraction finds an e-mail or a phone number |
| SectionDetector.ProfileMatchShape | backend/utils/section_detector.py:99-108 | a match of a profile pattern is its literal prefix followed by one or more word characters or dashes |
| SectionDetector.ProfilePathShape | backend/utils/section_detector.py:99-108 | a profile pattern found in a text yields its prefix followed by a non-empty run of word characters or dashes, and that run is maximal: it reaches the end of the text or stops before a character outside `[\w-]` |
| SectionDetector.ExtractedProfilesShape | backend/utils/section_detector.py:98-108 | an extracted LinkedIn value starts with `linkedin.com/in/` and a GitHub value starts with `github.com/`, each with at least one more character, and each holds the whole handle found in the lower-cased text |
| ResumeScorer.SuggestionList.constructor | backend/utils/resume_scorer.py:23 | the suggestion list starts empty |
| ResumeScorer.SuggestionList.Append | backend/utils/resume_scorer.py:66 | appending adds exactly one suggestion at the end and keeps the earlier ones |
| ResumeScorer.CountPresent | backend/utils/resume_scorer.py:62-71 | the number of listed sections present is at most the length of the list |
| ResumeScorer.DisplayName | backend/utils/resume_scorer.py:66 | `replace('_', ' ').title()` keeps the length of the key |
| ResumeScorer.MissingSuggestions | backend/utils/resume_scorer.py:62-66 | there is one suggestion per listed section that is absent |
| ResumeScorer.PrefixStep | backend/utils/resume_scorer.py:62-66 | one more iteration of the required-section loop adds one to the tally or appends the section's message |
| ResumeScorer.SectionScore | backend/utils/resume_scorer.py:54-73 | the section score lies in 0..30; one suggestion per missing required section |
| ResumeScorer.ScoreRequiredSections | backend/utils/resume_scorer.py:62-66 | the required-section loop adds 5 points per section present and appends the missing-section messages in list order |
| ResumeScorer.CalculateSectionScore | backend/utils/resume_scorer.py:54-73 | returns the section score and appends exactly its suggestions to the shared list |
| ResumeScorer.CountRequiredOptional | backend/utils/resume_scorer.py:56-57 | the tallies are contact_info, experience, education and skills for required sections; summary, projects and certifications for optional ones |
| ResumeScorer.SectionScoreTable | backend/utils/resume_scorer.py:59-73 | the score is 5 per required section plus round(3.33·b), i.e. 0, 3, 7 or 10 for b optional sections |
| ResumeScorer.SectionScoreFull | backend/utils/resume_scorer.py:54-73 | the full 30 points are reached exactly when all seven scored sections are present |
| ResumeScorer.SectionScoreIgnoresLanguages | backend/utils/resume_scorer.py:56-57 | the languages flag never affects the section score or its advice |
| ResumeScorer.MissingSuggestionsInOrder | backend/utils/resume_scorer.py:62-66 | the advice is `Missing required section: <Title>` for each missing required section, in the order contact, experience, education, skills |
| ResumeScorer.SectionTitles | backend/utils/resume_scorer.py:66 | each section's title in the advice equals the title-cased key with underscores replaced by spaces |
| ResumeScorer.ContactInfoName | backend/utils/resume_scorer.py:66 | `contact_info` is displayed as `Contact Info` |
| ResumeScorer.SingleWordName | backend/utils/resume_scorer.py:66 | a lower-case one-word key is displayed with only its first letter capitalised |
| ResumeScorer.TitleCaseOf | backend/utils/resume_scorer.py:66 | the displayed name capitalises exactly the first letter of each run of letters |
| ResumeScorer.LengthScore | backend/utils/resume_scorer.py:76-92 | the score is 20, 15, 10 or 5; 20 exactly for 300..800 words, and then no advice; at most one suggestion |
| ResumeScorer.CalculateLengthScore | backend/utils/resume_scorer.py:76-92 | returns the length score and appends exactly its advice |
| ResumeScorer.EmptyTextLength | backend/utils/resume_scorer.py:88-90 | an empty resume scores 5 with the "significantly outside" advice |
| ResumeScorer.LengthTiersNested | backend/utils/resume_scorer.py:80-90 | at least 15 points exactly for 200..1000 words and at least 10 exactly for 100..1500 words |
| ResumeScorer.Tier | backend/utils/resume_scorer.py:118-125 | a tier is worth 0, 4, 7 or 10 points, and 0 exactly below 3 hits |
| ResumeScorer.TierMonotone | backend/utils/resume_scorer.py:118-135 | more hits never give fewer points |
| ResumeScorer.KeywordScore | backend/utils/resume_scorer.py:95-137 | the score lies in 0..20 with at most two suggestions; no advice means at least 8 points |
| ResumeScorer.CalculateKeywordScore | backend/utils/resume_scorer.py:95-137 | returns the keyword score and appends exactly its advice |
| ResumeScorer.KeywordCountsBounded | backend/utils/resume_scorer.py:100-113 | at most 17 action verbs and 12 professional keywords can be counted |
| ResumeScorer.NoKeywordsScoresZero | backend/utils/resume_scorer.py:112-135 | a text with no listed verb and no listed keyword scores 0 with both pieces of advice, verbs first |
| ResumeScorer.AllKeywordsScoreFull | backend/utils/resume_scorer.py:112-135 | a text holding every verb and every keyword scores 20 with no advice |
| ResumeScorer.EndsInYear | backend/utils/resume_scorer.py:153-157 | any match of a pattern ending in `\d{4}` contains four digits in a row |
| ResumeScorer.MonthAlternative | backend/utils/resume_scorer.py:156 | the month pattern has one alternative per month abbreviation, each the month followed by `[a-z]*\s+\d{4}` |
| ResumeScorer.YearFoundIff | backend/utils/resume_scorer.py:154 | `\d{4}` is found exactly when the text has four digits in a row |
| ResumeScorer.NumericDateHasYear | backend/utils/resume_scorer.py:155 | a `\d{1,2}/\d{4}` match implies four digits in a row |
| ResumeScorer.MonthDateHasYear | backend/utils/resume_scorer.py:156 | a month-name date match implies four digits in a row |
| ResumeScorer.HasDates | backend/utils/resume_scorer.py:153-159 | a text has dates exactly when it has four digits in a row, since the other two patterns add nothing |
| ResumeScorer.MostlyBlankIff | backend/utils/resume_scorer.py:166-169 | the whitespace check fails exactly when more than half of the `split('\n')` lines are blank, counted as the set of blank-line indices |
| ResumeScorer.Deductions | backend/utils/resume_scorer.py:142-173 | 15 minus 5 per failed check; the advice is one message per failed check, in the order bullets, dates, whitespace; 15 exactly when all pass and 0 exactly when all fail |
| ResumeScorer.AdviseIf | backend/utils/resume_scorer.py:148-171 | a failed check adds exactly one piece of advice and a passed one none |
| ResumeScorer.FormattingScore | backend/utils/resume_scorer.py:140-173 | the score is 0, 5, 10 or 15, namely 15 minus 5 per suggestion; at most three suggestions: the bullets advice exactly when no bullet glyph occurs, then the dates advice exactly when there is no date, then the whitespace advice exactly when most lines are blank |
| ResumeScorer.CalculateFormattingScore | backend/utils/resume_scorer.py:140-173 | returns the formatting score and appends exactly its advice |
| ResumeScorer.FormattingAllFail | backend/utils/resume_scorer.py:145-173 | no bullet, no four digits and mostly blank lines give 0 and all three pieces of advice in order |
| ResumeScorer.EmptyTextFormatting | backend/utils/resume_scorer.py:140-173 | an empty resume fails every formatting check |
| ResumeScorer.KeepWords | backend/utils/resume_scorer.py:185-186 | a token is kept exactly when it is not a common word and is longer than 3 characters, and each kept word appears as many times as among the tokens, so `len(jd_words)` at line 193 counts occurrences |
| ResumeScorer.JdTier | backend/utils/resume_scorer.py:193-205 | the score is 0, 6, 9, 12 or 15; 15 exactly at a match rate of at least 40%, 0 exactly below 10% |
| ResumeScorer.JdTooShort | backend/utils/resume_scorer.py:178 | the early return is taken exactly when the stripped description is shorter than 50 characters; the separate empty-string test adds nothing |
| ResumeScorer.JdMatch | backend/utils/resume_scorer.py:176-207 | the score is one of the tiers; the only advice is the tailoring advice, and only with 0 points; a missing or short description, or one without important words, gives 0 and no advice |
| ResumeScorer.CalculateJdMatch | backend/utils/resume_scorer.py:176-207 | returns the match score and appends exactly its advice, with both early returns |
| ResumeScorer.JdAllWordsFound | backend/utils/resume_scorer.py:192-197 | when every important word of a usable description occurs in the resume, the score is 15 with no advice |
| ResumeScorer.JdNoWordFound | backend/utils/resume_scorer.py:192-205 | when none occurs, the score is 0 with the tailoring advice |
| ResumeScorer.Score | backend/utils/resume_scorer.py:4-51 | the overall score is the sum of the five sub-scores; each sub-score lies in its range; the overall score lies in 5..100; at most 11 suggestions |
| ResumeScorer.ScoreResume | backend/utils/resume_scorer.py:4-51 | the sub-scorers run in order on one shared list; the result is the breakdown with every suggestion in the order the sub-scorers appended it |
| ResumeScorer.FiveHundredWordExample | backend/utils/resume_scorer.py:54-92 | 500 words and exactly the four required sections give 20 section points and 20 length points |
| ResumeScorer.NoJdNoMatchScore | backend/utils/resume_scorer.py:176-179 | without a usable job description the match score is 0 and the suggestions are those of the other four sub-scorers |
| Text.ToLower | backend/utils/section_detector.py:14 | lower-casing a character leaves no upper-case letter and changes only upper-case letters |
| Text.Lower | backend/utils/section_detector.py:14 | `lower()` keeps the length; the result has no upper-case letter, letters stay letters in place, and every character that is not upper-case is unchanged |
| Text.LowerIdempotent | backend/utils/section_detector.py:14 | lower-casing twice is the same as once |
| Text.LowerSlice | backend/utils/section_detector.py:14 | lower-casing commutes with slicing |
| Text.ToUpper | backend/utils/resume_scorer.py:66 | upper-casing a character leaves no lower-case letter and changes only lower-case letters |
| Text.TitleCase | backend/utils/resume_scorer.py:66 | `title()` keeps the length and non-letters; a letter is upper-case exactly when it starts a run of letters |
| Text.ContainsSlice | backend/utils/section_detector.py:36 | a substring of a slice is a substring of the whole |
| Text.CountContained | backend/utils/resume_scorer.py:112-113 | the count is at most the list length; it is 0 exactly when no entry occurs, and full exactly when every entry occurs |
| Text.CountContainedIsCountIf | backend/utils/resume_scorer.py:112-113 | the keyword count is the generic `sum(1 for ...)` tally with the test `kw in s` |
| Text.RunLength | backend/utils/resume_scorer.py:78 | the leading run of a character class is maximal |
| Text.Runs | backend/utils/resume_scorer.py:78 | `split()` and `findall(r'\b\w+\b')` yield non-empty tokens of the class; there are none exactly when the text has no character of the class |
| Text.RunLengthSplit | backend/utils/resume_scorer.py:78 | a character outside the class ends the leading run at the latest |
| Text.RunsSplit | backend/utils/resume_scorer.py:78 | a character outside the class splits the tokens: those before it, then those after it |
| Text.RunsOfRun | backend/utils/resume_scorer.py:78 | a non-empty string made only of class characters is one token, itself |
| Text.WordCountSplit | backend/utils/resume_scorer.py:78 | joining two texts with a space adds their word counts |
| Text.OneWord | backend/utils/resume_scorer.py:78 | a non-empty text without whitespace is one word |
| Text.SplitLines | backend/utils/resume_scorer.py:166 | `split('\n')` gives at least one line and no line holds a newline |
| Text.JoinSplitLines | backend/utils/resume_scorer.py:166 | joining the split lines with newlines gives back the text |
| Text.SplitJoinLines | backend/utils/resume_scorer.py:166 | splitting newline-free lines joined with newlines gives back the lines |
| Text.TrimStart | backend/utils/resume_scorer.py:167 | drops exactly the leading whitespace |
| Text.TrimEnd | backend/utils/resume_scorer.py:167 | drops exactly the trailing whitespace |
| Text.Strip | backend/utils/resume_scorer.py:167 | `strip()` is a substring; it is empty exactly when the text is all whitespace; otherwise it neither starts nor ends with whitespace |
| Text.CountIf | backend/utils/resume_scorer.py:167 | a `sum(1 for ...)` tally is at most the number of elements |
| Text.CountIfAppend | backend/utils/resume_scorer.py:167 | the tally over two concatenated lists is the sum of their tallies |
| Text.CountIfIndices | backend/utils/resume_scorer.py:167 | the tally equals the number of indices whose element satisfies the test |
| Text.CountBlank | backend/utils/resume_scorer.py:167 | the number of blank lines is at most the number of lines |
| Text.CountBlankCounts | backend/utils/resume_scorer.py:167 | the tally of `line.strip() == ''` is exactly the number of blank lines |
| Text.Filter | backend/utils/resume_scorer.py:186 | a list comprehension with a condition keeps exactly the elements that pass it |
| Text.FilterCounts | backend/utils/resume_scorer.py:186 | each element that passes appears in the result as often as in the input; every other element is dropped |
| Regex.Run | backend/utils/section_detector.py:88 | a match found from a position ends within the text |
| Regex.RunSound | backend/utils/section_detector.py:88 | what the matcher consumes matches the pattern |
| Regex.RunComplete | backend/utils/section_detector.py:88 | if the pattern matches some text at a position, the matcher finds a match there |
| Regex.RunAlt | backend/utils/resume_scorer.py:156 | an alternation matches at a position exactly when one of its alternatives does |
| Regex.RunAltFirst | backend/utils/resume_scorer.py:156 | the alternation's result is that of the first alternative that succeeds, and every earlier alternative fails there |
| Regex.RunStarLast | backend/utils/section_detector.py:99 | a pattern ending in a starred class is greedy: its match ends at the end of the text or before a character outside the class |
| Regex.SearchFrom | backend/utils/section_detector.py:88 | the search returns a match at the first start position from which one exists, ending where the engine's match from there ends, and none when none exists |
| Regex.Search | backend/utils/section_detector.py:31 | `re.search` finds the leftmost match, with the end the engine prefers at that start, and finds nothing exactly when the pattern occurs nowhere |
| Regex.Found | backend/utils/section_detector.py:90 | `group(0)` is a substring of the searched text |
| Regex.MatchesAppend | backend/utils/section_detector.py:28 | matches of two patterns concatenate to a match of their concatenation |
| Regex.MatchesSplit | backend/utils/section_detector.py:28 | a match of a concatenation splits into a match of each part |
| Regex.OccursInSlice | backend/utils/section_detector.py:31 | a pattern occurring in a slice occurs in the whole text |
| Regex.Digits | backend/utils/resume_scorer.py:154 | `\d{n}` is n digit elements |
| Regex.MatchesDigits | backend/utils/resume_scorer.py:154 | `\d{n}` matches exactly the strings of n digits |
| Regex.MatchesLiteral | backend/utils/section_detector.py:99 | a literal pattern matches exactly its own text |
| Regex.MatchesStarRun | backend/utils/section_detector.py:28 | a run of class characters followed by a match of the rest matches the starred pattern |
| Regex.StarMatchesRun | backend/utils/section_detector.py:99 | a starred class matches only runs of that class |
| Regex.PlusMatchesRun | backend/utils/section_detector.py:99 | `[c]+` matches only non-empty runs of that class |
| Regex.MatchesUsesOne | backend/utils/section_detector.py:28-29 | a match of a pattern holding a single-character element holds a character of its class |

## Left out

- Character classes are ASCII only. Python's `\d`, `\s`, `\w`, `lower()` and `title()` follow Unicode; here letters are `A-Z`/`a-z`, digits `0-9`, and whitespace is space, the controls from tab through carriage return, and the separators 0x1C to 0x1F.
- There is no floating point. The optional-section score 3.33 is kept in hundredths, rounded by `(h + 50) / 100`; this agrees with Python's `round` because no sum lands on a half. The blank-line ratio `> 0.5` is `2 * blank > lines`, and `lines` is never 0. The JD percentages are compared by cross-multiplication.
- `score_resume` applies `round` to an integer sum, which leaves the sum unchanged; the model returns the sum.
- The `sections` dictionary is the record `SectionMap`, which always holds all eight keys. `sections.get` on a caller's dictionary with missing keys or non-boolean values is not modelled.
- Every dictionary result is modelled as a record. The `suggestions` entry shares its list with the sub-scorers; this sharing is the `SuggestionList` object.
- ResumeScorer.ScoreRequiredSections is the required-section loop of `calculate_section_score`, split out as its own method. `CalculateSectionScore` calls it and then runs the optional-section loop.
- ResumeScorer.DisplayName: the advice message uses a per-section title table, `SectionTitle`. The lemma `SectionTitles` proves that table equal to `DisplayName` (the replace plus `title()` of the key).
- `calculate_jd_match` counts important words per occurrence, repeats included, as the code does (resume_scorer.py:186,192).
- The Flask application, the text extractor (PDF/DOCX reading) and the frontend are not part of this model, and neither is `test_post.py`.
