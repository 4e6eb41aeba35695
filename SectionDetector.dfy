/**
 * Section detection: which conventional resume sections a text appears to
 * contain, and the contact details that can be read off it.
 *
 * The contact flag is set by an e-mail or phone-number regular expression
 * searched in the original text; every other flag is set when some keyword
 * of its list occurs, as a plain substring, in the lower-cased text.
 */
module SectionDetector {
  import opened Wrappers
  import opened Text
  import opened Regex

  /** The eight keys of the section map. */
  datatype Section =
    | ContactInfo | Summary | Experience | Education
    | Skills | Projects | Certifications | Languages

  /** The dictionary key that reports the section. */
  function Key(sec: Section): string {
    match sec
    case ContactInfo => "contact_info"
    case Summary => "summary"
    case Experience => "experience"
    case Education => "education"
    case Skills => "skills"
    case Projects => "projects"
    case Certifications => "certifications"
    case Languages => "languages"
  }

  /** The keywords whose presence sets a section other than the contact section. */
  function Keywords(sec: Section): seq<string> {
    match sec
    case ContactInfo => []
    case Summary => ["summary", "objective", "profile", "about me", "professional summary"]
    case Experience =>
      ["experience", "work history", "employment", "professional experience", "work experience"]
    case Education =>
      ["education", "academic", "degree", "university", "college", "bachelor", "master", "phd"]
    case Skills => ["skills", "technical skills", "core competencies", "technologies", "expertise"]
    case Projects => ["projects", "portfolio", "work samples"]
    case Certifications => ["certification", "certificate", "licensed", "credentials"]
    case Languages => ["languages", "language proficiency", "linguistic skills"]
  }

  /** `[a-zA-Z]{2,}`: the top-level domain. */
  const TopLevelDomain: Pattern := [One(Letter)] + ([One(Letter)] + [Star(Letter)])

  /** `[a-zA-Z0-9.-]+\.[a-zA-Z]{2,}`: the part after the `@`. */
  const EmailDomainPart: Pattern :=
    [One(EmailDomain)] + ([Star(EmailDomain)] + ([One(Lit('.'))] + TopLevelDomain))

  /** `[a-zA-Z0-9._%+-]+@[a-zA-Z0-9.-]+\.[a-zA-Z]{2,}` */
  const EmailPattern: Pattern :=
    [One(EmailLocal)] + ([Star(EmailLocal)] + ([One(Lit('@'))] + EmailDomainPart))

  const Email: seq<Pattern> := [EmailPattern]

  /** `\d{3}\)?[-.\s]?\d{3}[-.\s]?\d{4}` */
  const PhoneDigits: Pattern :=
    Digits(3) + [Opt(Lit(')')), Opt(Separator)] + Digits(3) + [Opt(Separator)] + Digits(4)

  /** `\(?\d{3}\)?[-.\s]?\d{3}[-.\s]?\d{4}` */
  const PhoneCore: Pattern := [Opt(Lit('('))] + PhoneDigits

  /** The optional country-code group `(\+?\d{1,3}[-.\s]?)`. */
  const PhoneCountryCode: Pattern :=
    [Opt(Lit('+')), One(Digit), Opt(Digit), Opt(Digit), Opt(Separator)]

  /**
   * `(\+?\d{1,3}[-.\s]?)?\(?\d{3}\)?[-.\s]?\d{3}[-.\s]?\d{4}`: the engine
   * tries the pattern with the optional group first, then without it.
   */
  const Phone: seq<Pattern> := [PhoneCountryCode + PhoneCore, PhoneCore]

  /** `linkedin\.com/in/[\w-]+` */
  const LinkedIn: seq<Pattern> := [Literal("linkedin.com/in/") + [One(WordOrDash), Star(WordOrDash)]]

  /** `github\.com/[\w-]+` */
  const GitHub: seq<Pattern> := [Literal("github.com/") + [One(WordOrDash), Star(WordOrDash)]]

  /** Some keyword of the section occurs in the lower-cased text. */
  predicate HasKeyword(textLower: string, sec: Section) {
    ContainsAny(textLower, Keywords(sec))
  }

  /** The meaning of each flag of `detect_sections`. */
  ghost predicate Detected(text: string, sec: Section) {
    if sec == ContactInfo then Occurs(Email, text) || Occurs(Phone, text)
    else HasKeyword(Lower(text), sec)
  }

  /**
   * The section map: one presence flag per key, all eight keys always
   * present.
   */
  datatype SectionMap = SectionMap(
    contactInfo: bool, summary: bool, experience: bool, education: bool,
    skills: bool, projects: bool, certifications: bool, languages: bool)

  /** The flag stored under the key of sec. */
  function Get(sections: SectionMap, sec: Section): bool {
    match sec
    case ContactInfo => sections.contactInfo
    case Summary => sections.summary
    case Experience => sections.experience
    case Education => sections.education
    case Skills => sections.skills
    case Projects => sections.projects
    case Certifications => sections.certifications
    case Languages => sections.languages
  }

  /** The section map that `detect_sections` should return for text. */
  ghost function DetectedSections(text: string): SectionMap {
    SectionMap(
      Detected(text, ContactInfo), Detected(text, Summary), Detected(text, Experience),
      Detected(text, Education), Detected(text, Skills), Detected(text, Projects),
      Detected(text, Certifications), Detected(text, Languages))
  }

  /**
   * `detect_sections`: the dictionary starts with every key false and each
   * key is then set from its own test, the contact key first. A key whose
   * test fails keeps its initial false, so assigning the test's outcome is
   * the same as setting the key to true only when the test succeeds.
   */
  method DetectSections(text: string) returns (sections: SectionMap)
    ensures sections == DetectedSections(text)
  {
    var textLower := Lower(text);
    sections := SectionMap(false, false, false, false, false, false, false, false);
    sections := sections.(contactInfo := Search(Email, text).Some? || Search(Phone, text).Some?);
    sections := sections.(summary := HasKeyword(textLower, Summary));
    sections := sections.(experience := HasKeyword(textLower, Experience));
    sections := sections.(education := HasKeyword(textLower, Education));
    sections := sections.(skills := HasKeyword(textLower, Skills));
    sections := sections.(projects := HasKeyword(textLower, Projects));
    sections := sections.(certifications := HasKeyword(textLower, Certifications));
    sections := sections.(languages := HasKeyword(textLower, Languages));
  }

  /** The contact details record; a field is None when nothing matched. */
  datatype ContactDetails = ContactDetails(
    email: Option<string>,
    phone: Option<string>,
    linkedin: Option<string>,
    github: Option<string>)

  /** `re.search(pattern, s).group(0)`, or None when there is no match. */
  function FirstMatch(alts: seq<Pattern>, s: string): (r: Option<string>)
    ensures r.Some? ==> MatchesAny(alts, r.value) && Contains(s, r.value)
    ensures r.None? <==> !Occurs(alts, s)
  {
    match Search(alts, s)
    case Some(span) => Some(Found(s, span))
    case None => None
  }

  /**
   * Which match `group(0)` returns: the one at the leftmost position where
   * the pattern matches, ending where the engine's order of trials first
   * succeeds there.
   */
  lemma FirstMatchAt(alts: seq<Pattern>, s: string, w: string) returns (i: nat)
    requires FirstMatch(alts, s) == Some(w)
    ensures OccursAt(s, w, i) && MatchesIn(alts, s, i, i + |w|)
    ensures RunAlt(alts, s, i) == Some(i + |w|)
    ensures forall j: nat, e: nat | j < i :: !MatchesIn(alts, s, j, e)
  {
    var span := Search(alts, s).value;
    i := span.start;
  }

  /**
   * `extract_contact_details`: e-mail and phone are searched in the text
   * as given, the LinkedIn and GitHub paths in its lower-cased copy.
   */
  method ExtractContactDetails(text: string) returns (contact: ContactDetails)
    ensures contact.email == FirstMatch(Email, text)
    ensures contact.phone == FirstMatch(Phone, text)
    ensures contact.linkedin == FirstMatch(LinkedIn, Lower(text))
    ensures contact.github == FirstMatch(GitHub, Lower(text))
  {
    contact := ContactDetails(None, None, None, None);
    var emailMatch := Search(Email, text);
    if emailMatch.Some? {
      contact := contact.(email := Some(Found(text, emailMatch.value)));
    }
    var phoneMatch := Search(Phone, text);
    if phoneMatch.Some? {
      contact := contact.(phone := Some(Found(text, phoneMatch.value)));
    }
    var linkedinMatch := Search(LinkedIn, Lower(text));
    if linkedinMatch.Some? {
      contact := contact.(linkedin := Some(Found(Lower(text), linkedinMatch.value)));
    }
    var githubMatch := Search(GitHub, Lower(text));
    if githubMatch.Some? {
      contact := contact.(github := Some(Found(Lower(text), githubMatch.value)));
    }
  }

  /** The flag DetectedSections stores under each key is that key's test. */
  lemma GetDetectedSections(text: string, sec: Section)
    ensures Get(DetectedSections(text), sec) == Detected(text, sec)
  {
  }

  /**
   * A keyword flag depends on the text only through its lower-cased copy:
   * lower-casing the text first changes nothing.
   */
  lemma KeywordFlagIgnoresCase(text: string, sec: Section)
    requires sec != ContactInfo
    ensures Detected(Lower(text), sec) == Detected(text, sec)
  {
    LowerIdempotent(text);
  }

  /**
   * Keywords are found whatever their case in the text: a stretch of the
   * original text that lower-cases to a keyword sets the keyword's section.
   */
  lemma HeadingSetsFlag(text: string, sec: Section, k: nat, i: nat, u: string)
    requires k < |Keywords(sec)|
    requires OccursAt(text, u, i) && Lower(u) == Keywords(sec)[k]
    ensures Detected(text, sec)
  {
    LowerSlice(text, i, i + |u|);
    assert OccursAt(Lower(text), Keywords(sec)[k], i);
  }

  /** A flag found in part of a text is found in the whole text. */
  lemma DetectedInSlice(text: string, a: nat, b: nat, sec: Section)
    requires a <= b <= |text|
    requires Detected(text[a..b], sec)
    ensures Detected(text, sec)
  {
    if sec == ContactInfo {
      if Occurs(Email, text[a..b]) {
        OccursInSlice(Email, text, a, b);
      } else {
        OccursInSlice(Phone, text, a, b);
      }
    } else {
      LowerSlice(text, a, b);
      var kws := Keywords(sec);
      var k :| 0 <= k < |kws| && Contains(Lower(text)[a..b], kws[k]);
      ContainsSlice(Lower(text), a, b, kws[k]);
    }
  }

  /** Extending a text on either side never clears a flag. */
  lemma DetectedSectionsMonotone(text: string, a: nat, b: nat)
    requires a <= b <= |text|
    ensures forall sec :: Get(DetectedSections(text[a..b]), sec) ==> Get(DetectedSections(text), sec)
  {
    forall sec | Get(DetectedSections(text[a..b]), sec) ensures Get(DetectedSections(text), sec) {
      GetDetectedSections(text[a..b], sec);
      GetDetectedSections(text, sec);
      DetectedInSlice(text, a, b, sec);
    }
  }

  /** A match of the digit core is a match of the phone pattern. */
  lemma PhoneDigitsSetPhone(s: string, i: nat, e: nat)
    requires MatchesIn([PhoneDigits], s, i, e)
    ensures MatchesIn(Phone, s, i, e)
  {
    MatchesOptSkip(Lit('('), PhoneDigits, s[i..e]);
  }

  /** A match of the phone pattern ends in a match of its digit core. */
  lemma PhoneHasDigits(s: string, i: nat, e: nat) returns (j: nat)
    requires MatchesIn(Phone, s, i, e)
    ensures i <= j <= e && MatchesIn([PhoneDigits], s, j, e)
  {
    var w := s[i..e];
    var k: nat := 0;
    if Matches(PhoneCountryCode + PhoneCore, w) {
      k := MatchesSplit(PhoneCountryCode, PhoneCore, w);
    }
    var v := w[k..];
    assert Matches(PhoneCore, v);
    var m := MatchesOptThen(Lit('('), PhoneDigits, v);
    j := i + k + m;
    assert v[m..] == s[j..e];
  }

  /**
   * The optional country code and opening parenthesis never decide whether
   * the phone pattern occurs: it does exactly when its digit core does.
   */
  lemma PhoneOccursIff(s: string)
    ensures Occurs(Phone, s) <==> Occurs([PhoneDigits], s)
  {
    if Occurs([PhoneDigits], s) {
      var i: nat, e: nat :| MatchesIn([PhoneDigits], s, i, e);
      PhoneDigitsSetPhone(s, i, e);
    }
    if Occurs(Phone, s) {
      var i: nat, e: nat :| MatchesIn(Phone, s, i, e);
      var j := PhoneHasDigits(s, i, e);
    }
  }

  /** Ten consecutive digits, an unformatted phone number, set the contact flag. */
  lemma TenDigitsSetContact(text: string, i: nat)
    requires i + 10 <= |text|
    requires forall k | i <= k < i + 10 :: IsDigit(text[k])
    ensures Detected(text, ContactInfo)
  {
    var w := text[i..i + 10];
    var gap1: Pattern := [Opt(Lit(')')), Opt(Separator)];
    var gap2: Pattern := [Opt(Separator)];
    assert gap1[1..] == gap2 && gap2[1..] == [];
    assert Matches(gap1, []) && Matches(gap2, []);
    var a, b, c := w[..3], w[3..6], w[6..];
    assert forall k | 0 <= k < 3 :: IsDigit(a[k]) && IsDigit(b[k]) && a[k] == text[i + k] && b[k] == text[i + 3 + k];
    assert forall k | 0 <= k < 4 :: IsDigit(c[k]) && c[k] == text[i + 6 + k];
    MatchesDigits(3, a);
    MatchesDigits(3, b);
    MatchesDigits(4, c);
    assert a + [] == a && a + b + [] == a + b;
    MatchesAppend(Digits(3), gap1, a, []);
    MatchesAppend(Digits(3) + gap1, Digits(3), a, b);
    MatchesAppend(Digits(3) + gap1 + Digits(3), gap2, a + b, []);
    MatchesAppend(Digits(3) + gap1 + Digits(3) + gap2, Digits(4), a + b, c);
    assert a + b + c == w;
    assert MatchesIn([PhoneDigits], text, i, i + 10);
    PhoneOccursIff(text);
  }

  /** Two or more letters match the top-level-domain tail `[a-zA-Z]{2,}`. */
  lemma TopLevelDomainMatches(tld: string)
    requires |tld| >= 2 && forall k | 0 <= k < |tld| :: IsAlpha(tld[k])
    ensures Matches(TopLevelDomain, tld)
  {
    MatchesStarRun(Letter, [], tld[2..], []);
    assert [Star(Letter)] + [] == [Star(Letter)] && tld[2..] + [] == tld[2..];
    MatchesOneThen(Letter, [Star(Letter)], tld[1], tld[2..]);
    MatchesOneThen(Letter, [One(Letter)] + [Star(Letter)], tld[0], [tld[1]] + tld[2..]);
    assert [tld[0]] + ([tld[1]] + tld[2..]) == tld;
  }

  /** `[a-zA-Z0-9.-]+\.[a-zA-Z]{2,}` matches a domain, a dot and a top-level domain. */
  lemma DomainMatches(domain: string, tld: string)
    requires domain != [] && forall k | 0 <= k < |domain| :: InClass(EmailDomain, domain[k])
    requires |tld| >= 2 && forall k | 0 <= k < |tld| :: IsAlpha(tld[k])
    ensures Matches(EmailDomainPart, domain + "." + tld)
  {
    var dotTld := ['.'] + tld;
    assert Matches([One(Lit('.'))] + TopLevelDomain, dotTld) by {
      TopLevelDomainMatches(tld);
      MatchesOneThen(Lit('.'), TopLevelDomain, '.', tld);
    }
    assert Matches(EmailDomainPart, domain + dotTld) by {
      MatchesPlusThen(EmailDomain, [One(Lit('.'))] + TopLevelDomain, domain, dotTld);
    }
    ConcatAssoc(domain, ['.'], tld);
  }

  /** The e-mail pattern matches a local part, `@` and a match of the domain part. */
  lemma EmailMatches(local: string, rest: string)
    requires local != [] && forall k | 0 <= k < |local| :: InClass(EmailLocal, local[k])
    requires Matches(EmailDomainPart, rest)
    ensures Matches(EmailPattern, local + "@" + rest)
  {
    var atRest := ['@'] + rest;
    assert Matches([One(Lit('@'))] + EmailDomainPart, atRest) by {
      MatchesOneThen(Lit('@'), EmailDomainPart, '@', rest);
    }
    assert Matches(EmailPattern, local + atRest) by {
      MatchesPlusThen(EmailLocal, [One(Lit('@'))] + EmailDomainPart, local, atRest);
    }
    ConcatAssoc(local, ['@'], rest);
  }

  /** Such an address anywhere in the text sets the contact flag. */
  lemma EmailSetsContact(text: string, local: string, domain: string, tld: string)
    requires local != [] && forall k | 0 <= k < |local| :: InClass(EmailLocal, local[k])
    requires domain != [] && forall k | 0 <= k < |domain| :: InClass(EmailDomain, domain[k])
    requires |tld| >= 2 && forall k | 0 <= k < |tld| :: IsAlpha(tld[k])
    requires Contains(text, local + "@" + domain + "." + tld)
    ensures Detected(text, ContactInfo)
  {
    var address := local + "@" + domain + "." + tld;
    DomainMatches(domain, tld);
    EmailMatches(local, domain + "." + tld);
    assert address == local + "@" + (domain + "." + tld);
    var i :| 0 <= i <= |text| && OccursAt(text, address, i);
    assert MatchesIn(Email, text, i, i + |address|);
  }

  /** The e-mail address of the usual example sets the contact flag. */
  lemma ExampleEmailSetsContact()
    ensures Detected("john@example.com", ContactInfo)
  {
    var text := "john@example.com";
    assert text == "john" + "@" + "example" + "." + "com";
    assert OccursAt(text, text, 0);
    EmailSetsContact(text, "john", "example", "com");
  }

  /** A text with no `@` and no digit has no contact information. */
  lemma NoAtNoDigitNoContact(text: string)
    requires forall k | 0 <= k < |text| :: text[k] != '@' && !IsDigit(text[k])
    ensures !Detected(text, ContactInfo)
  {
    forall i: nat, e: nat | MatchesIn(Email, text, i, e) ensures false {
      assert Matches(EmailPattern, text[i..e]);
      MatchesUsesOne(EmailPattern, text[i..e], 2);
    }
    forall i: nat, e: nat | MatchesIn([PhoneDigits], text, i, e) ensures false {
    }
    PhoneOccursIff(text);
  }

  /**
   * Detection and extraction agree on contact information: the flag is set
   * exactly when an e-mail address or a phone number is extracted.
   */
  lemma ContactFlagMatchesExtraction(text: string)
    ensures Detected(text, ContactInfo) <==> FirstMatch(Email, text).Some? || FirstMatch(Phone, text).Some?
  {
  }

  /** A match of a profile pattern is its prefix followed by a run of word characters and dashes. */
  lemma ProfileMatchShape(prefix: string, w: string)
    requires Matches(Literal(prefix) + [One(WordOrDash), Star(WordOrDash)], w)
    ensures |w| > |prefix| && w[..|prefix|] == prefix
    ensures forall k | |prefix| <= k < |w| :: InClass(WordOrDash, w[k])
  {
    var n := MatchesSplit(Literal(prefix), [One(WordOrDash), Star(WordOrDash)], w);
    MatchesLiteral(prefix, w[..n]);
    var v := w[n..];
    PlusMatchesRun(WordOrDash, v);
    assert forall k | n <= k < |w| :: w[k] == v[k - n];
  }

  /**
   * w occurs in s at i and cannot be extended there by another word
   * character or dash: the handle runs to the end of the text or stops
   * before a character outside `[\w-]`.
   */
  ghost predicate MaximalAt(s: string, w: string, i: nat) {
    OccursAt(s, w, i) && (i + |w| == |s| || !InClass(WordOrDash, s[i + |w|]))
  }

  /**
   * An extracted profile path is the fixed prefix followed by a non-empty
   * run of word characters and dashes, and `[\w-]+` takes the whole run:
   * the handle is never cut short.
   */
  lemma ProfilePathShape(prefix: string, s: string, w: string) returns (i: nat)
    requires FirstMatch([Literal(prefix) + [One(WordOrDash), Star(WordOrDash)]], s) == Some(w)
    ensures |w| > |prefix| && w[..|prefix|] == prefix
    ensures forall k | |prefix| <= k < |w| :: InClass(WordOrDash, w[k])
    ensures MaximalAt(s, w, i)
  {
    var p := Literal(prefix) + [One(WordOrDash), Star(WordOrDash)];
    assert Matches(p, w);
    ProfileMatchShape(prefix, w);
    i := FirstMatchAt([p], s, w);
    assert Run(p, s, i) == RunAlt([p], s, i);
    RunStarLast(p, s, i);
  }

  /**
   * The LinkedIn and GitHub fields hold profile paths under their sites,
   * each with its whole handle.
   */
  lemma ExtractedProfilesShape(text: string)
    ensures FirstMatch(LinkedIn, Lower(text)).Some? ==>
      var w := FirstMatch(LinkedIn, Lower(text)).value;
      |w| > 16 && w[..16] == "linkedin.com/in/" && exists i: nat :: MaximalAt(Lower(text), w, i)
    ensures FirstMatch(GitHub, Lower(text)).Some? ==>
      var w := FirstMatch(GitHub, Lower(text)).value;
      |w| > 11 && w[..11] == "github.com/" && exists i: nat :: MaximalAt(Lower(text), w, i)
  {
    var l := FirstMatch(LinkedIn, Lower(text));
    if l.Some? {
      var i := ProfilePathShape("linkedin.com/in/", Lower(text), l.value);
    }
    var g := FirstMatch(GitHub, Lower(text));
    if g.Some? {
      var i := ProfilePathShape("github.com/", Lower(text), g.value);
    }
  }

  /** The elements of the e-mail pattern that the extraction proofs rely on. */
  lemma EmailPatternShape()
    ensures |EmailPattern| == 9
    ensures EmailPattern[2] == One(Lit('@')) && EmailPattern[5] == One(Lit('.'))
    ensures EmailPattern[8] == Star(Letter)
  {
  }

  /**
   * An e-mail match needs an `@` and, after it, a dot, and its greedy
   * top-level domain stops only before a non-letter: so the engine's match
   * from the start covers the whole text whenever every prefix ending
   * before a non-letter lacks an `@` or a dot.
   */
  lemma EmailRunWhole(s: string)
    requires Run(EmailPattern, s, 0).Some?
    requires forall e | 0 <= e < |s| && !IsAlpha(s[e]) ::
      (forall k | 0 <= k < e :: s[k] != '@') || (forall k | 0 <= k < e :: s[k] != '.')
    ensures Run(EmailPattern, s, 0) == Some(|s|)
  {
    var e := Run(EmailPattern, s, 0).value;
    EmailPatternShape();
    RunStarLast(EmailPattern, s, 0);
    if e < |s| {
      var v := s[0..e];
      RunSound(EmailPattern, s, 0);
      if forall k | 0 <= k < e :: s[k] != '@' {
        MatchesUsesOne(EmailPattern, v, 2);
      } else {
        MatchesUsesOne(EmailPattern, v, 5);
      }
    }
  }

  /** Under the same condition a matching text is extracted whole. */
  lemma EmailExtractedWhole(s: string)
    requires Matches(EmailPattern, s)
    requires forall e | 0 <= e < |s| && !IsAlpha(s[e]) ::
      (forall k | 0 <= k < e :: s[k] != '@') || (forall k | 0 <= k < e :: s[k] != '.')
    ensures FirstMatch(Email, s) == Some(s)
  {
    assert s[0..|s|] == s && EmailPattern in Email;
    assert MatchesIn(Email, s, 0, |s|);
    var w := FirstMatch(Email, s).value;
    var i := FirstMatchAt(Email, s, w);
    assert i == 0;
    assert RunAlt(Email, s, 0) == Run(EmailPattern, s, 0);
    EmailRunWhole(s);
    assert w == s[0..|s|];
  }

  /** The usual example address is extracted whole. */
  lemma ExampleEmailExtracted()
    ensures FirstMatch(Email, "john@example.com") == Some("john@example.com")
  {
    var s := "john@example.com";
    assert Matches(EmailPattern, s) by {
      assert s == "john" + "@" + ("example" + "." + "com");
      DomainMatches("example", "com");
      EmailMatches("john", "example" + "." + "com");
    }
    forall e | 0 <= e < |s| && !IsAlpha(s[e])
      ensures (forall k | 0 <= k < e :: s[k] != '@') || (forall k | 0 <= k < e :: s[k] != '.')
    {
      assert e == 4 || e == 12;
    }
    EmailExtractedWhole(s);
  }

}
