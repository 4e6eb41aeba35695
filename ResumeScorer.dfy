/**
 * Resume scoring. Five sub-scorers run in a fixed order: sections, length,
 * keywords, formatting, job-description match. Each returns its points and
 * appends its advice to one list of suggestions that they all share; the
 * overall score is the sum of the five.
 *
 * Every sub-scorer is a method proved equal to a function that states its
 * result as a value (a `Scored`: the points and the suggestions it
 * appends); the properties of the scoring rules are proved about those
 * functions.
 */
module ResumeScorer {
  import opened Text
  import opened Regex
  import opened SectionDetector

  /** The list of suggestions that the sub-scorers append to, in order. */
  class SuggestionList {
    var items: seq<string>

    constructor ()
      ensures items == []
    {
      items := [];
    }

    method Append(s: string)
      modifies this
      ensures items == old(items) + [s]
    {
      items := items + [s];
    }
  }

  /** The points of one sub-score and the suggestions it appends, in order. */
  datatype Scored = Scored(score: int, suggestions: seq<string>)

  /** The result of `score_resume`. */
  datatype ScoreBreakdown = ScoreBreakdown(
    overallScore: int,
    sectionScore: int,
    lengthScore: int,
    keywordScore: int,
    formattingScore: int,
    jdMatchScore: int,
    suggestions: seq<string>)

  // ---------------------------------------------------------------------
  // Section completeness (30 points)
  // ---------------------------------------------------------------------

  const RequiredSections: seq<Section> := [ContactInfo, Experience, Education, Skills]
  const OptionalSections: seq<Section> := [Summary, Projects, Certifications]

  /** Appending one element after a concatenation. */
  lemma AppendOne<T>(a: seq<T>, b: seq<T>, x: T)
    ensures (a + b) + [x] == a + (b + [x])
  {
  }

  /** How many of secs the map marks present. */
  function CountPresent(sections: SectionMap, secs: seq<Section>): (n: nat)
    ensures n <= |secs|
  {
    if secs == [] then 0
    else CountPresent(sections, secs[..|secs| - 1]) + (if Get(sections, secs[|secs| - 1]) then 1 else 0)
  }

  /** `key.replace('_', ' ')`. */
  function SpaceUnderscores(key: string): string
  {
    seq(|key|, i requires 0 <= i < |key| => if key[i] == '_' then ' ' else key[i])
  }

  /** `section.replace('_', ' ').title()`: the name shown for a key. */
  function DisplayName(key: string): (name: string)
    ensures |name| == |key|
  {
    TitleCase(SpaceUnderscores(key))
  }

  /**
   * The name shown for a section; SectionTitles proves it is the display
   * name of the section's key.
   */
  function SectionTitle(sec: Section): string {
    match sec
    case ContactInfo => "Contact Info"
    case Summary => "Summary"
    case Experience => "Experience"
    case Education => "Education"
    case Skills => "Skills"
    case Projects => "Projects"
    case Certifications => "Certifications"
    case Languages => "Languages"
  }

  /** The message for a missing required section. */
  function MissingMessage(sec: Section): string {
    "Missing required section: " + SectionTitle(sec)
  }

  /** One message for each section of secs the map marks absent, in list order. */
  function MissingSuggestions(sections: SectionMap, secs: seq<Section>): (m: seq<string>)
    ensures |m| + CountPresent(sections, secs) == |secs|
  {
    if secs == [] then []
    else
      var last := secs[|secs| - 1];
      MissingSuggestions(sections, secs[..|secs| - 1]) + (if Get(sections, last) then [] else [MissingMessage(last)])
  }

  /** Extending a prefix of secs by its next section extends the tally and the messages by that section. */
  lemma PrefixStep(sections: SectionMap, secs: seq<Section>, i: nat)
    requires i < |secs|
    ensures CountPresent(sections, secs[..i + 1]) ==
      CountPresent(sections, secs[..i]) + (if Get(sections, secs[i]) then 1 else 0)
    ensures MissingSuggestions(sections, secs[..i + 1]) ==
      MissingSuggestions(sections, secs[..i]) + (if Get(sections, secs[i]) then [] else [MissingMessage(secs[i])])
  {
    assert secs[..i + 1][..i] == secs[..i];
  }

  /**
   * Python's `round` of a non-negative amount given in hundredths. The
   * amounts rounded here are 500a + 333b, which never end in 50, so the
   * rule for ties does not arise.
   */
  function RoundHundredths(h: nat): nat {
    (h + 50) / 100
  }

  /** `round(3.33 * b)` for b optional sections present. */
  function OptionalPoints(b: nat): nat
    requires b <= 3
  {
    [0, 3, 7, 10][b]
  }

  /** `calculate_section_score` as a value. */
  function SectionScore(sections: SectionMap): (r: Scored)
    ensures 0 <= r.score <= 30
    ensures |r.suggestions| == 4 - CountPresent(sections, RequiredSections)
  {
    var hundredths := 500 * CountPresent(sections, RequiredSections) + 333 * CountPresent(sections, OptionalSections);
    Scored(RoundHundredths(hundredths), MissingSuggestions(sections, RequiredSections))
  }

  /**
   * The loop of `calculate_section_score` over the required sections: 500
   * hundredths for each one present and a message for each one absent, in
   * list order.
   */
  method ScoreRequiredSections(sections: SectionMap, suggestions: SuggestionList) returns (hundredths: int)
    modifies suggestions
    ensures hundredths == 500 * CountPresent(sections, RequiredSections)
    ensures suggestions.items == old(suggestions.items) + MissingSuggestions(sections, RequiredSections)
  {
    hundredths := 0;
    for i := 0 to |RequiredSections|
      invariant hundredths == 500 * CountPresent(sections, RequiredSections[..i])
      invariant suggestions.items == old(suggestions.items) + MissingSuggestions(sections, RequiredSections[..i])
    {
      var section := RequiredSections[i];
      PrefixStep(sections, RequiredSections, i);
      if Get(sections, section) {
        hundredths := hundredths + 500;
      } else {
        suggestions.Append(MissingMessage(section));
        AppendOne(old(suggestions.items), MissingSuggestions(sections, RequiredSections[..i]), MissingMessage(section));
      }
    }
    assert RequiredSections[..|RequiredSections|] == RequiredSections;
  }

  /**
   * `calculate_section_score`: 5 points for each required section present
   * and a message for each one absent, then 3.33 points, here 333
   * hundredths, for each optional section present; the sum is rounded.
   */
  method CalculateSectionScore(sections: SectionMap, suggestions: SuggestionList) returns (score: int)
    modifies suggestions
    ensures score == SectionScore(sections).score
    ensures suggestions.items == old(suggestions.items) + SectionScore(sections).suggestions
  {
    var hundredths := ScoreRequiredSections(sections, suggestions);
    var required := hundredths;
    for i := 0 to |OptionalSections|
      invariant hundredths == required + 333 * CountPresent(sections, OptionalSections[..i])
      invariant suggestions.items == old(suggestions.items) + SectionScore(sections).suggestions
    {
      PrefixStep(sections, OptionalSections, i);
      if Get(sections, OptionalSections[i]) {
        hundredths := hundredths + 333;
      }
    }
    assert OptionalSections[..|OptionalSections|] == OptionalSections;
    score := RoundHundredths(hundredths);
  }

  /** The tally of required and optional sections present in a map. */
  lemma CountRequiredOptional(sections: SectionMap)
    ensures CountPresent(sections, RequiredSections) ==
      (if sections.contactInfo then 1 else 0) + (if sections.experience then 1 else 0) +
      (if sections.education then 1 else 0) + (if sections.skills then 1 else 0)
    ensures CountPresent(sections, OptionalSections) ==
      (if sections.summary then 1 else 0) + (if sections.projects then 1 else 0) +
      (if sections.certifications then 1 else 0)
  {
    var r1, r2, r3 := [ContactInfo], [ContactInfo, Experience], [ContactInfo, Experience, Education];
    assert r1[..0] == [] && r2[..1] == r1 && r3[..2] == r2 && RequiredSections[..3] == r3;
    assert CountPresent(sections, r1) == (if sections.contactInfo then 1 else 0);
    assert CountPresent(sections, r2) == CountPresent(sections, r1) + (if sections.experience then 1 else 0);
    assert CountPresent(sections, r3) == CountPresent(sections, r2) + (if sections.education then 1 else 0);
    var o1, o2 := [Summary], [Summary, Projects];
    assert o1[..0] == [] && o2[..1] == o1 && OptionalSections[..2] == o2;
    assert CountPresent(sections, o1) == (if sections.summary then 1 else 0);
    assert CountPresent(sections, o2) == CountPresent(sections, o1) + (if sections.projects then 1 else 0);
  }

  /**
   * The section score is 5 points per required section present plus the
   * rounded 3.33 points per optional section present.
   */
  lemma SectionScoreTable(sections: SectionMap)
    ensures var a, b := CountPresent(sections, RequiredSections), CountPresent(sections, OptionalSections);
      SectionScore(sections).score == 5 * a + OptionalPoints(b)
  {
    var a, b := CountPresent(sections, RequiredSections), CountPresent(sections, OptionalSections);
    assert a <= 4 && b <= 3;
    var h := 500 * a + 333 * b;
    if b == 0 {
      assert h + 50 == 100 * (5 * a) + 50;
    } else if b == 1 {
      assert h + 50 == 100 * (5 * a + 3) + 83;
    } else if b == 2 {
      assert h + 50 == 100 * (5 * a + 7) + 16;
    } else {
      assert h + 50 == 100 * (5 * a + 10) + 49;
    }
  }

  /** The full 30 points need every required and every optional section. */
  lemma SectionScoreFull(sections: SectionMap)
    ensures SectionScore(sections).score == 30 <==>
      CountPresent(sections, RequiredSections) == 4 && CountPresent(sections, OptionalSections) == 3
  {
    SectionScoreTable(sections);
  }

  /** The languages flag never affects the section score or its suggestions. */
  lemma SectionScoreIgnoresLanguages(sections: SectionMap, flag: bool)
    ensures SectionScore(sections.(languages := flag)) == SectionScore(sections)
  {
    var other := sections.(languages := flag);
    CountRequiredOptional(sections);
    CountRequiredOptional(other);
    MissingSuggestionsInOrder(sections);
    MissingSuggestionsInOrder(other);
  }

  /**
   * The missing-section messages name the absent required sections in the
   * order contact info, experience, education, skills; optional sections
   * never add one.
   */
  lemma MissingSuggestionsInOrder(sections: SectionMap)
    ensures SectionScore(sections).suggestions ==
      (if sections.contactInfo then [] else [MissingMessage(ContactInfo)]) +
      (if sections.experience then [] else [MissingMessage(Experience)]) +
      (if sections.education then [] else [MissingMessage(Education)]) +
      (if sections.skills then [] else [MissingMessage(Skills)])
  {
    var r1, r2, r3 := [ContactInfo], [ContactInfo, Experience], [ContactInfo, Experience, Education];
    assert r1[..0] == [] && r2[..1] == r1 && r3[..2] == r2 && RequiredSections[..3] == r3;
    assert MissingSuggestions(sections, r1) == [] + (if sections.contactInfo then [] else [MissingMessage(ContactInfo)]);
    assert MissingSuggestions(sections, r2) ==
      MissingSuggestions(sections, r1) + (if sections.experience then [] else [MissingMessage(Experience)]);
    assert MissingSuggestions(sections, r3) ==
      MissingSuggestions(sections, r2) + (if sections.education then [] else [MissingMessage(Education)]);
  }

  /** Every section title is the display name of the section's key. */
  lemma SectionTitles(sec: Section)
    ensures SectionTitle(sec) == DisplayName(Key(sec))
  {
    match sec
    case ContactInfo => ContactInfoName();
    case Summary => SingleWordName("summary", "Summary");
    case Experience => SingleWordName("experience", "Experience");
    case Education => SingleWordName("education", "Education");
    case Skills => SingleWordName("skills", "Skills");
    case Projects => SingleWordName("projects", "Projects");
    case Certifications => SingleWordName("certifications", "Certifications");
    case Languages => SingleWordName("languages", "Languages");
  }

  lemma ContactInfoName()
    ensures DisplayName("contact_info") == "Contact Info"
  {
    TitleCaseOf("contact_info", "contact info", "Contact Info");
  }

  /** A key made of lower-case letters only is shown with its first letter capitalized. */
  lemma SingleWordName(key: string, name: string)
    requires key != [] && forall i | 0 <= i < |key| :: IsLowerLetter(key[i])
    requires name == [ToUpper(key[0])] + key[1..]
    ensures DisplayName(key) == name
  {
    forall i | 0 <= i < |key|
      ensures name[i] == if StartsRun(key, i) then ToUpper(key[i]) else ToLower(key[i])
    {
      if i > 0 {
        assert IsAlpha(key[i - 1]);
      }
    }
    TitleCaseOf(key, key, name);
  }

  /** The display name of key, worked out through the key with spaces. */
  lemma TitleCaseOf(key: string, spaced: string, name: string)
    requires |spaced| == |key| && forall i | 0 <= i < |key| :: spaced[i] == (if key[i] == '_' then ' ' else key[i])
    requires |name| == |key| && forall i | 0 <= i < |key| ::
      name[i] == if StartsRun(spaced, i) then ToUpper(spaced[i]) else ToLower(spaced[i])
    ensures DisplayName(key) == name
  {
    assert SpaceUnderscores(key) == spaced;
  }

  // ---------------------------------------------------------------------
  // Length (20 points)
  // ---------------------------------------------------------------------

  const LengthCouldBeOptimized := "Resume length could be optimized (aim for 300-800 words)"
  const LengthTooShortOrLong := "Resume is too short/long. Optimal range: 300-800 words"
  const LengthFarOutside := "Resume length is significantly outside optimal range"

  /** `calculate_length_score` as a value. */
  function LengthScore(text: string): (r: Scored)
    ensures r.score == 20 || r.score == 15 || r.score == 10 || r.score == 5
    ensures r.score == 20 <==> 300 <= WordCount(text) <= 800
    ensures r.score == 20 <==> r.suggestions == []
    ensures |r.suggestions| <= 1
  {
    var n := WordCount(text);
    if 300 <= n <= 800 then Scored(20, [])
    else if 200 <= n < 300 || 800 < n <= 1000 then Scored(15, [LengthCouldBeOptimized])
    else if 100 <= n < 200 || 1000 < n <= 1500 then Scored(10, [LengthTooShortOrLong])
    else Scored(5, [LengthFarOutside])
  }

  /** `calculate_length_score`: the word-count tier and its advice. */
  method CalculateLengthScore(text: string, suggestions: SuggestionList) returns (score: int)
    modifies suggestions
    ensures score == LengthScore(text).score
    ensures suggestions.items == old(suggestions.items) + LengthScore(text).suggestions
  {
    var wordCount := |Words(text)|;
    if 300 <= wordCount <= 800 {
      score := 20;
    } else if 200 <= wordCount < 300 || 800 < wordCount <= 1000 {
      score := 15;
      suggestions.Append(LengthCouldBeOptimized);
    } else if 100 <= wordCount < 200 || 1000 < wordCount <= 1500 {
      score := 10;
      suggestions.Append(LengthTooShortOrLong);
    } else {
      score := 5;
      suggestions.Append(LengthFarOutside);
    }
  }

  /** An empty resume has no words and gets the lowest length tier. */
  lemma EmptyTextLength()
    ensures LengthScore("") == Scored(5, [LengthFarOutside])
  {
    assert Words("") == [];
  }

  /** The length tiers get no better as the word count moves away from 300..800. */
  lemma LengthTiersNested(text: string)
    ensures LengthScore(text).score >= 15 <==> 200 <= WordCount(text) <= 1000
    ensures LengthScore(text).score >= 10 <==> 100 <= WordCount(text) <= 1500
  {
  }

  // ---------------------------------------------------------------------
  // Keywords (20 points)
  // ---------------------------------------------------------------------

  const ActionVerbs: seq<string> := [
    "achieved", "improved", "developed", "managed", "led", "created",
    "implemented", "designed", "built", "launched", "optimized", "increased",
    "reduced", "streamlined", "coordinated", "executed", "delivered"]

  const ProfessionalKeywords: seq<string> := [
    "project", "team", "analysis", "strategy", "solution", "system",
    "process", "data", "customer", "business", "technical", "development"]

  const MoreActionVerbs := "Use more action verbs (achieved, developed, managed, etc.)"
  const MoreKeywords := "Include more professional keywords relevant to your field"

  /** The points one count earns: at least 8, 5 or 3 give 10, 7 or 4. */
  function Tier(count: nat): (points: int)
    ensures points == 0 || points == 4 || points == 7 || points == 10
    ensures points == 0 <==> count < 3
  {
    if count >= 8 then 10 else if count >= 5 then 7 else if count >= 3 then 4 else 0
  }

  /** More matches never earn fewer points. */
  lemma TierMonotone(a: nat, b: nat)
    requires a <= b
    ensures Tier(a) <= Tier(b)
  {
  }

  /** `calculate_keyword_score` as a value. */
  function KeywordScore(text: string): (r: Scored)
    ensures 0 <= r.score <= 20
    ensures |r.suggestions| <= 2
    ensures r.suggestions == [] ==> r.score >= 8
  {
    var textLower := Lower(text);
    var verbs := CountContained(textLower, ActionVerbs);
    var keywords := CountContained(textLower, ProfessionalKeywords);
    Scored(Tier(verbs) + Tier(keywords),
      (if verbs < 3 then [MoreActionVerbs] else []) + (if keywords < 3 then [MoreKeywords] else []))
  }

  /** `calculate_keyword_score`: the two counts, each through the tiers. */
  method CalculateKeywordScore(text: string, suggestions: SuggestionList) returns (score: int)
    modifies suggestions
    ensures score == KeywordScore(text).score
    ensures suggestions.items == old(suggestions.items) + KeywordScore(text).suggestions
  {
    var textLower := Lower(text);
    var actionVerbCount := CountContained(textLower, ActionVerbs);
    var keywordCount := CountContained(textLower, ProfessionalKeywords);
    score := 0;
    if actionVerbCount >= 8 {
      score := score + 10;
    } else if actionVerbCount >= 5 {
      score := score + 7;
    } else if actionVerbCount >= 3 {
      score := score + 4;
    } else {
      suggestions.Append(MoreActionVerbs);
    }
    if keywordCount >= 8 {
      score := score + 10;
    } else if keywordCount >= 5 {
      score := score + 7;
    } else if keywordCount >= 3 {
      score := score + 4;
    } else {
      suggestions.Append(MoreKeywords);
    }
  }

  /** At most the 17 action verbs and the 12 keywords can be counted. */
  lemma KeywordCountsBounded(text: string)
    ensures CountContained(Lower(text), ActionVerbs) <= 17
    ensures CountContained(Lower(text), ProfessionalKeywords) <= 12
  {
  }

  /** Neither an action verb nor a keyword: no points and both suggestions. */
  lemma NoKeywordsScoresZero(text: string)
    requires !ContainsAny(Lower(text), ActionVerbs)
    requires !ContainsAny(Lower(text), ProfessionalKeywords)
    ensures KeywordScore(text) == Scored(0, [MoreActionVerbs, MoreKeywords])
  {
  }

  /** Every action verb and every keyword present: the full 20 points. */
  lemma AllKeywordsScoreFull(text: string)
    requires forall k | 0 <= k < |ActionVerbs| :: Contains(Lower(text), ActionVerbs[k])
    requires forall k | 0 <= k < |ProfessionalKeywords| :: Contains(Lower(text), ProfessionalKeywords[k])
    ensures KeywordScore(text) == Scored(20, [])
  {
  }

  // ---------------------------------------------------------------------
  // Formatting (15 points)
  // ---------------------------------------------------------------------

  /** The bullet glyphs: bullet, hyphen, asterisk, right arrow, small square. */
  const Bullets: seq<string> := ["\U{2022}", "-", "*", "\U{2192}", "\U{25AA}"]

  /** `\d{4}`: a year. */
  const YearPattern: Pattern := Digits(4)

  /** `\d{1,2}/\d{4}`: a numeric month and year. */
  const NumericMonthYear: Pattern := [One(Digit), Opt(Digit), One(Lit('/'))] + Digits(4)

  /** `Jan[a-z]*\s+\d{4}` for one month abbreviation. */
  function MonthDate(month: string): Pattern {
    (Literal(month) + [Star(LowerLetter), One(Space), Star(Space)]) + Digits(4)
  }

  /**
   * `(Jan|Feb|...|Dec)[a-z]*\s+\d{4}`: one alternative per month, tried in
   * the order of the group.
   */
  const MonthNameYear: seq<Pattern> := [
    MonthDate("Jan"), MonthDate("Feb"), MonthDate("Mar"), MonthDate("Apr"),
    MonthDate("May"), MonthDate("Jun"), MonthDate("Jul"), MonthDate("Aug"),
    MonthDate("Sep"), MonthDate("Oct"), MonthDate("Nov"), MonthDate("Dec")]

  /**
   * `any(re.search(p, text) for p in date_patterns)`. Every date pattern
   * holds `\d{4}`, so a text has dates exactly when it has four digits in a
   * row: the other two patterns add nothing.
   */
  predicate HasDates(text: string): (found: bool)
    ensures found <==> exists i: nat :: FourDigitsAt(text, i)
  {
    YearFoundIff(text);
    NumericDateHasYear(text);
    MonthDateHasYear(text);
    Search([YearPattern], text).Some? || Search([NumericMonthYear], text).Some? ||
    Search(MonthNameYear, text).Some?
  }

  /** Four digits in a row start at index i. */
  predicate FourDigitsAt(s: string, i: nat) {
    i + 4 <= |s| && forall k | i <= k < i + 4 :: IsDigit(s[k])
  }

  /** A match of a pattern ending in `\d{4}` contains four digits in a row. */
  lemma EndsInYear(prefix: Pattern, s: string, i: nat, e: nat)
    requires i <= e <= |s|
    requires Matches(prefix + Digits(4), s[i..e])
    ensures exists j: nat :: FourDigitsAt(s, j)
  {
    var w := s[i..e];
    var k := MatchesSplit(prefix, Digits(4), w);
    MatchesDigits(4, w[k..]);
    assert forall d | 0 <= d < 4 :: w[k..][d] == s[i + k + d];
    assert FourDigitsAt(s, i + k);
  }

  /** The month abbreviations of the month-name pattern, in the order of its group. */
  const MonthNames: seq<string> :=
    ["Jan", "Feb", "Mar", "Apr", "May", "Jun", "Jul", "Aug", "Sep", "Oct", "Nov", "Dec"]

  /** The k-th alternative of the month-name pattern is the one for the k-th month. */
  lemma MonthAlternative(k: nat)
    requires k < |MonthNameYear|
    ensures |MonthNames| == |MonthNameYear| && MonthNameYear[k] == MonthDate(MonthNames[k])
  {
  }

  /** A text holds `\d{4}` exactly when it has four digits in a row. */
  lemma YearFoundIff(text: string)
    ensures Search([YearPattern], text).Some? <==> exists i: nat :: FourDigitsAt(text, i)
  {
    if i: nat :| FourDigitsAt(text, i) {
      var w := text[i..i + 4];
      assert forall d | 0 <= d < 4 :: w[d] == text[i + d];
      MatchesDigits(4, w);
      assert MatchesIn([YearPattern], text, i, i + 4);
    }
    var year := Search([YearPattern], text);
    if year.Some? {
      var span := year.value;
      assert [] + Digits(4) == YearPattern;
      assert Matches([] + Digits(4), text[span.start..span.end]);
      EndsInYear([], text, span.start, span.end);
    }
  }

  /** A numeric month and year contains four digits in a row. */
  lemma NumericDateHasYear(text: string)
    ensures Search([NumericMonthYear], text).Some? ==> exists i: nat :: FourDigitsAt(text, i)
  {
    if Search([NumericMonthYear], text).None? {
      return;
    }
    var span := Search([NumericMonthYear], text).value;
    assert Matches(NumericMonthYear, text[span.start..span.end]);
    EndsInYear([One(Digit), Opt(Digit), One(Lit('/'))], text, span.start, span.end);
  }

  /** A month name followed by a year contains four digits in a row. */
  lemma MonthDateHasYear(text: string)
    ensures Search(MonthNameYear, text).Some? ==> exists i: nat :: FourDigitsAt(text, i)
  {
    if Search(MonthNameYear, text).None? {
      return;
    }
    var span := Search(MonthNameYear, text).value;
    var w := text[span.start..span.end];
    var p :| p in MonthNameYear && Matches(p, w);
    var k :| 0 <= k < |MonthNameYear| && MonthNameYear[k] == p;
    MonthAlternative(k);
    var prefix := Literal(MonthNames[k]) + [Star(LowerLetter), One(Space), Star(Space)];
    assert p == prefix + Digits(4);
    EndsInYear(prefix, text, span.start, span.end);
  }

  /** More than half of the lines of `text.split('\n')` are blank. */
  predicate MostlyBlank(text: string) {
    var lines := SplitLines(text);
    2 * CountBlank(lines) > |lines|
  }

  /**
   * The whitespace check fails exactly when the blank lines, counted as a
   * set of line indices, are more than half of all lines.
   */
  lemma MostlyBlankIff(text: string)
    ensures MostlyBlank(text) <==> 2 * |BlankIndices(SplitLines(text))| > |SplitLines(text)|
  {
    CountBlankCounts(SplitLines(text));
  }

  const UseBullets := "Use bullet points to improve readability"
  const IncludeDates := "Include dates for experience and education"
  const ReduceWhitespace := "Reduce excessive whitespace for better formatting"

  /**
   * The formatting score given the outcome of the three checks: 5 points
   * off and one piece of advice for each check that fails, in the order
   * bullets, dates, whitespace.
   */
  function Deductions(hasBullets: bool, hasDates: bool, mostlyBlank: bool): (r: Scored)
    ensures r.score == 15 - 5 * |r.suggestions|
    ensures 0 <= r.score <= 15
    ensures r.score == 15 <==> hasBullets && hasDates && !mostlyBlank
    ensures r.score == 0 <==> !hasBullets && !hasDates && mostlyBlank
    ensures r.suggestions ==
      (if hasBullets then [] else [UseBullets]) + (if hasDates then [] else [IncludeDates]) +
      (if mostlyBlank then [ReduceWhitespace] else [])
  {
    var advice :=
      AdviseIf(AdviseIf(AdviseIf([], !hasBullets, UseBullets), !hasDates, IncludeDates), mostlyBlank, ReduceWhitespace);
    var deducted := 15 - 5 * |advice|;
    Scored(if deducted > 0 then deducted else 0, advice)
  }

  /** The advice so far, followed by `advice` when a check failed. */
  function AdviseIf(acc: seq<string>, failed: bool, advice: string): (r: seq<string>)
    ensures |r| == |acc| + (if failed then 1 else 0)
  {
    if failed then acc + [advice] else acc
  }

  /** `calculate_formatting_score` as a value. */
  function FormattingScore(text: string): (r: Scored)
    ensures r.score == 0 || r.score == 5 || r.score == 10 || r.score == 15
    ensures |r.suggestions| <= 3 && r.score == 15 - 5 * |r.suggestions|
    ensures r.suggestions ==
      (if ContainsAny(text, Bullets) then [] else [UseBullets]) +
      (if HasDates(text) then [] else [IncludeDates]) +
      (if MostlyBlank(text) then [ReduceWhitespace] else [])
  {
    Deductions(ContainsAny(text, Bullets), HasDates(text), MostlyBlank(text))
  }

  /**
   * `calculate_formatting_score`: start from 15 and take 5 off for each
   * check that fails, adding its advice; never below 0.
   */
  method CalculateFormattingScore(text: string, suggestions: SuggestionList) returns (score: int)
    modifies suggestions
    ensures score == FormattingScore(text).score
    ensures suggestions.items == old(suggestions.items) + FormattingScore(text).suggestions
  {
    score := 15;
    ghost var advice: seq<string> := [];
    var hasBullets := ContainsAny(text, Bullets);
    if !hasBullets {
      score := score - 5;
      suggestions.Append(UseBullets);
      AppendOne(old(suggestions.items), advice, UseBullets);
    }
    advice := AdviseIf(advice, !hasBullets, UseBullets);
    assert suggestions.items == old(suggestions.items) + advice;
    var hasDates := HasDates(text);
    if !hasDates {
      score := score - 5;
      suggestions.Append(IncludeDates);
      AppendOne(old(suggestions.items), advice, IncludeDates);
    }
    advice := AdviseIf(advice, !hasDates, IncludeDates);
    assert suggestions.items == old(suggestions.items) + advice;
    var lines := SplitLines(text);
    var emptyLines := CountBlank(lines);
    var mostlyBlank := 2 * emptyLines > |lines|;
    if mostlyBlank {
      score := score - 5;
      suggestions.Append(ReduceWhitespace);
      AppendOne(old(suggestions.items), advice, ReduceWhitespace);
    }
    advice := AdviseIf(advice, mostlyBlank, ReduceWhitespace);
    assert suggestions.items == old(suggestions.items) + advice;
    assert score == 15 - 5 * |advice|;
    if score < 0 {
      score := 0;
    }
  }

  /**
   * No bullet, no four digits in a row and mostly blank lines: all three
   * checks fail, the score is 0 and the three suggestions come in order.
   */
  lemma FormattingAllFail(text: string)
    requires !ContainsAny(text, Bullets)
    requires forall i: nat :: !FourDigitsAt(text, i)
    requires MostlyBlank(text)
    ensures FormattingScore(text) == Scored(0, [UseBullets, IncludeDates, ReduceWhitespace])
  {
    assert !HasDates(text);
    assert FormattingScore(text) == Deductions(false, false, true);
  }

  /** The empty resume fails every formatting check. */
  lemma EmptyTextFormatting()
    ensures FormattingScore("") == Scored(0, [UseBullets, IncludeDates, ReduceWhitespace])
  {
    assert SplitLines("") == [""];
    assert IsBlank("");
    FormattingAllFail("");
  }

  // ---------------------------------------------------------------------
  // Job-description match (15 points)
  // ---------------------------------------------------------------------

  const CommonWords: set<string> :=
    {"the", "and", "or", "in", "at", "to", "for", "of", "with", "a", "an", "is", "are", "be", "will"}

  const TailorAdvice := "Resume has low keyword match with job description. Tailor it more closely."

  /** A job-description token worth matching: not a common word and longer than 3. */
  predicate Important(w: string) {
    w !in CommonWords && |w| > 3
  }

  /**
   * The tokens kept from a job description, repeats included: every
   * important token occurs in the result as often as among the tokens, so
   * `len(jd_words)` counts occurrences.
   */
  function KeepWords(tokens: seq<string>): (words: seq<string>)
    ensures |words| <= |tokens|
    ensures forall w | w in words :: w in tokens && Important(w)
    ensures forall w | w in tokens && Important(w) :: w in words
    ensures forall w :: multiset(words)[w] == if Important(w) then multiset(tokens)[w] else 0
  {
    FilterCounts(tokens, Important);
    Filter(tokens, Important)
  }

  /** The important words of a job description, repeats included. */
  function JdWords(jd: string): seq<string> {
    KeepWords(WordTokens(Lower(jd)))
  }

  /**
   * The points for `matches` of `total` words: a percentage of at least
   * 40, 30, 20 or 10 gives 15, 12, 9 or 6, compared exactly by
   * cross-multiplication.
   */
  function JdTier(matches: nat, total: nat): (points: int)
    requires 0 < total
    ensures points == 0 || points == 6 || points == 9 || points == 12 || points == 15
    ensures points == 15 <==> 100 * matches >= 40 * total
    ensures points == 0 <==> 100 * matches < 10 * total
  {
    if 100 * matches >= 40 * total then 15
    else if 100 * matches >= 30 * total then 12
    else if 100 * matches >= 20 * total then 9
    else if 100 * matches >= 10 * total then 6
    else 0
  }

  /** Whether the job description is missing or too short to be used. */
  predicate JdTooShort(jd: string): (short: bool)
    ensures short <==> |Strip(jd)| < 50
  {
    jd == "" || |Strip(jd)| < 50
  }

  /** `calculate_jd_match` as a value. */
  function JdMatch(text: string, jd: string): (r: Scored)
    ensures r.score == 0 || r.score == 6 || r.score == 9 || r.score == 12 || r.score == 15
    ensures r.suggestions == [] || r.suggestions == [TailorAdvice]
    ensures r.suggestions != [] ==> r.score == 0
    ensures JdTooShort(jd) || JdWords(jd) == [] ==> r == Scored(0, [])
  {
    if JdTooShort(jd) then Scored(0, [])
    else
      var words := JdWords(jd);
      if words == [] then Scored(0, [])
      else
        var points := JdTier(CountContained(Lower(text), words), |words|);
        Scored(points, if points == 0 then [TailorAdvice] else [])
  }

  /**
   * `calculate_jd_match`: nothing for a missing or short description or one
   * without important words; otherwise the tier of the share of its words
   * found in the resume.
   */
  method CalculateJdMatch(text: string, jd: string, suggestions: SuggestionList) returns (score: int)
    modifies suggestions
    ensures score == JdMatch(text, jd).score
    ensures suggestions.items == old(suggestions.items) + JdMatch(text, jd).suggestions
  {
    if jd == "" || |Strip(jd)| < 50 {
      assert JdMatch(text, jd).suggestions == [];
      assert suggestions.items == old(suggestions.items) + [];
      return 0;
    }
    assert !JdTooShort(jd);
    var textLower := Lower(text);
    var jdLower := Lower(jd);
    var jdWords := KeepWords(WordTokens(jdLower));
    assert jdWords == JdWords(jd);
    if jdWords == [] {
      assert JdMatch(text, jd).suggestions == [];
      assert suggestions.items == old(suggestions.items) + [];
      return 0;
    }
    var matchCount := CountContained(textLower, jdWords);
    var total := |jdWords|;
    ghost var points := JdTier(matchCount, total);
    assert JdMatch(text, jd) == Scored(points, if points == 0 then [TailorAdvice] else []);
    score := 0;
    if 100 * matchCount >= 40 * total {
      score := 15;
    } else if 100 * matchCount >= 30 * total {
      score := 12;
    } else if 100 * matchCount >= 20 * total {
      score := 9;
    } else if 100 * matchCount >= 10 * total {
      score := 6;
    } else {
      suggestions.Append(TailorAdvice);
    }
    assert suggestions.items == old(suggestions.items) + (if score == 0 then [TailorAdvice] else []);
  }

  /** Every important word of a usable description found: the full 15 points. */
  lemma JdAllWordsFound(text: string, jd: string)
    requires !JdTooShort(jd) && JdWords(jd) != []
    requires forall k | 0 <= k < |JdWords(jd)| :: Contains(Lower(text), JdWords(jd)[k])
    ensures JdMatch(text, jd) == Scored(15, [])
  {
  }

  /** None of them found: no points and the advice to tailor the resume. */
  lemma JdNoWordFound(text: string, jd: string)
    requires !JdTooShort(jd) && JdWords(jd) != []
    requires !ContainsAny(Lower(text), JdWords(jd))
    ensures JdMatch(text, jd) == Scored(0, [TailorAdvice])
  {
  }

  // ---------------------------------------------------------------------
  // The overall score
  // ---------------------------------------------------------------------

  /** `score_resume` as a value. */
  function Score(text: string, sections: SectionMap, jd: string): (r: ScoreBreakdown)
    ensures r.overallScore == r.sectionScore + r.lengthScore + r.keywordScore + r.formattingScore + r.jdMatchScore
    ensures 0 <= r.sectionScore <= 30 && 5 <= r.lengthScore <= 20 && 0 <= r.keywordScore <= 20
    ensures 0 <= r.formattingScore <= 15 && 0 <= r.jdMatchScore <= 15
    ensures 5 <= r.overallScore <= 100
    ensures |r.suggestions| <= 11
  {
    Assemble(SectionScore(sections), LengthScore(text), KeywordScore(text), FormattingScore(text), JdMatch(text, jd))
  }

  /** The breakdown of five sub-scores: their sum, each score, and their advice in order. */
  function Assemble(section: Scored, length: Scored, keyword: Scored, formatting: Scored, jdMatch: Scored): ScoreBreakdown
  {
    ScoreBreakdown(
      section.score + length.score + keyword.score + formatting.score + jdMatch.score,
      section.score, length.score, keyword.score, formatting.score, jdMatch.score,
      section.suggestions + length.suggestions + keyword.suggestions + formatting.suggestions + jdMatch.suggestions)
  }

  /**
   * `score_resume`: the five sub-scorers run in order on one shared
   * suggestion list, and the overall score is their sum (`round` of an
   * integer sum is that sum).
   */
  method ScoreResume(text: string, sections: SectionMap, jd: string) returns (scores: ScoreBreakdown)
    ensures scores == Score(text, sections, jd)
  {
    var suggestions := new SuggestionList();
    var sectionScore := CalculateSectionScore(sections, suggestions);
    ghost var advice := SectionScore(sections).suggestions;
    assert suggestions.items == advice;
    var lengthScore := CalculateLengthScore(text, suggestions);
    advice := advice + LengthScore(text).suggestions;
    assert suggestions.items == advice;
    var keywordScore := CalculateKeywordScore(text, suggestions);
    advice := advice + KeywordScore(text).suggestions;
    assert suggestions.items == advice;
    var formattingScore := CalculateFormattingScore(text, suggestions);
    advice := advice + FormattingScore(text).suggestions;
    assert suggestions.items == advice;
    var jdMatchScore := CalculateJdMatch(text, jd, suggestions);
    advice := advice + JdMatch(text, jd).suggestions;
    assert suggestions.items == advice;
    scores := ScoreBreakdown(
      sectionScore + lengthScore + keywordScore + formattingScore + jdMatchScore,
      sectionScore, lengthScore, keywordScore, formattingScore, jdMatchScore,
      suggestions.items);
  }

  /**
   * A 500-word resume with all four required sections and no optional one
   * scores 20 for sections and 20 for length.
   */
  lemma FiveHundredWordExample(text: string, sections: SectionMap)
    requires WordCount(text) == 500
    requires sections.contactInfo && sections.experience && sections.education && sections.skills
    requires !sections.summary && !sections.projects && !sections.certifications
    ensures Score(text, sections, "").sectionScore == 20
    ensures Score(text, sections, "").lengthScore == 20
  {
    CountRequiredOptional(sections);
    SectionScoreTable(sections);
  }

  /** Without a usable job description the match score is 0 and adds no advice. */
  lemma NoJdNoMatchScore(text: string, sections: SectionMap, jd: string)
    requires JdTooShort(jd)
    ensures Score(text, sections, jd).jdMatchScore == 0
    ensures Score(text, sections, jd).suggestions ==
      SectionScore(sections).suggestions + LengthScore(text).suggestions +
      KeywordScore(text).suggestions + FormattingScore(text).suggestions
  {
    assert JdMatch(text, jd).suggestions == [];
  }
}
