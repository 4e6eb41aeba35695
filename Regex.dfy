/**
 * The fragment of Python regular expressions that the analyzer uses, read
 * in two ways.
 *
 * `Matches` is the language of a pattern: which strings it denotes.
 * `Run` is how Python's backtracking engine searches: at each optional or
 * repeated element it tries the greedy choice (take one more character)
 * first and falls back to the other only when the rest of the pattern
 * fails. `Search` is `re.search`: it tries the start positions from left to
 * right and keeps the first at which `Run` succeeds.
 *
 * The lemmas tie the two readings together: whatever the engine returns is
 * in the language, and it fails only when nothing is.
 */
module Regex {
  import opened Wrappers
  import opened Text

  /** The character classes that occur in the analyzer's patterns. */
  datatype CharClass =
    | Lit(ch: char)   // one literal character (escaped metacharacters included)
    | Digit           // \d
    | Letter          // [a-zA-Z]
    | LowerLetter     // [a-z]
    | Space           // \s
    | Separator       // [-.\s]
    | EmailLocal      // [a-zA-Z0-9._%+-]
    | EmailDomain     // [a-zA-Z0-9.-]
    | WordOrDash      // [\w-]

  predicate InClass(cc: CharClass, c: char) {
    match cc
    case Lit(ch) => c == ch
    case Digit => IsDigit(c)
    case Letter => IsAlpha(c)
    case LowerLetter => IsLowerLetter(c)
    case Space => IsSpace(c)
    case Separator => c == '-' || c == '.' || IsSpace(c)
    case EmailLocal => IsAlpha(c) || IsDigit(c) || c == '.' || c == '_' || c == '%' || c == '+' || c == '-'
    case EmailDomain => IsAlpha(c) || IsDigit(c) || c == '.' || c == '-'
    case WordOrDash => IsWord(c) || c == '-'
  }

  /**
   * One element of a pattern: exactly one character of a class, an optional
   * one (`?`), or any number of them (`*`); the last two are greedy.
   * `x+` is written One(x), Star(x); `x{1,3}` is One(x), Opt(x), Opt(x).
   */
  datatype Elem = One(cc: CharClass) | Opt(cc: CharClass) | Star(cc: CharClass)

  type Pattern = seq<Elem>

  /** The pattern that matches exactly the string w. */
  function Literal(w: string): (p: Pattern)
    ensures |p| == |w|
    ensures forall i | 0 <= i < |w| :: p[i] == One(Lit(w[i]))
  {
    seq(|w|, i requires 0 <= i < |w| => One(Lit(w[i])))
  }

  /** w, as a whole, belongs to the language of p. */
  predicate Matches(p: Pattern, w: string)
    decreases |p|, |w|
  {
    if p == [] then w == []
    else match p[0]
      case One(cc) => |w| > 0 && InClass(cc, w[0]) && Matches(p[1..], w[1..])
      case Opt(cc) => (|w| > 0 && InClass(cc, w[0]) && Matches(p[1..], w[1..])) || Matches(p[1..], w)
      case Star(cc) => (|w| > 0 && InClass(cc, w[0]) && Matches(p, w[1..])) || Matches(p[1..], w)
  }

  /**
   * The backtracking engine: the end of the first match of p that starts at
   * pos, in the engine's order of preference, or None.
   */
  function Run(p: Pattern, s: string, pos: nat): (r: Option<nat>)
    requires pos <= |s|
    ensures r.Some? ==> pos <= r.value <= |s|
    decreases |p|, |s| - pos
  {
    if p == [] then Some(pos)
    else match p[0]
      case One(cc) =>
        if pos < |s| && InClass(cc, s[pos]) then Run(p[1..], s, pos + 1) else None
      case Opt(cc) =>
        var taken := if pos < |s| && InClass(cc, s[pos]) then Run(p[1..], s, pos + 1) else None;
        if taken.Some? then taken else Run(p[1..], s, pos)
      case Star(cc) =>
        var taken := if pos < |s| && InClass(cc, s[pos]) then Run(p, s, pos + 1) else None;
        if taken.Some? then taken else Run(p[1..], s, pos)
  }

  /** The engine's result is in the language. */
  lemma {:induction false} RunSound(p: Pattern, s: string, pos: nat)
    requires pos <= |s|
    requires Run(p, s, pos).Some?
    ensures Matches(p, s[pos..Run(p, s, pos).value])
    decreases |p|, |s| - pos
  {
    var e := Run(p, s, pos).value;
    if p != [] {
      var consume := pos < |s| && InClass(p[0].cc, s[pos]);
      match p[0]
      case One(cc) =>
        RunSound(p[1..], s, pos + 1);
        assert s[pos..e][1..] == s[pos + 1..e];
      case Opt(cc) =>
        if consume && Run(p[1..], s, pos + 1).Some? {
          RunSound(p[1..], s, pos + 1);
          assert s[pos..e][1..] == s[pos + 1..e];
        } else {
          RunSound(p[1..], s, pos);
        }
      case Star(cc) =>
        if consume && Run(p, s, pos + 1).Some? {
          RunSound(p, s, pos + 1);
          assert s[pos..e][1..] == s[pos + 1..e];
        } else {
          RunSound(p[1..], s, pos);
        }
    }
  }

  /** The engine finds a match at pos whenever the language has one there. */
  lemma {:induction false} RunComplete(p: Pattern, s: string, pos: nat, e: nat)
    requires pos <= e <= |s|
    requires Matches(p, s[pos..e])
    ensures Run(p, s, pos).Some?
    decreases |p|, e - pos
  {
    var w := s[pos..e];
    if p != [] {
      var consume := |w| > 0 && InClass(p[0].cc, w[0]);
      match p[0]
      case One(cc) =>
        assert w[1..] == s[pos + 1..e];
        RunComplete(p[1..], s, pos + 1, e);
      case Opt(cc) =>
        if consume && Matches(p[1..], w[1..]) {
          assert w[1..] == s[pos + 1..e];
          RunComplete(p[1..], s, pos + 1, e);
        } else {
          RunComplete(p[1..], s, pos, e);
        }
      case Star(cc) =>
        if consume && Matches(p, w[1..]) {
          assert w[1..] == s[pos + 1..e];
          RunComplete(p, s, pos + 1, e);
        } else {
          RunComplete(p[1..], s, pos, e);
        }
    }
  }

  /**
   * `x*` is greedy: when a pattern ends in a starred class, the engine's
   * match stops only at the end of the text or before a character outside
   * that class.
   */
  lemma {:induction false} RunStarLast(p: Pattern, s: string, pos: nat)
    requires pos <= |s|
    requires |p| > 0 && p[|p| - 1].Star?
    requires Run(p, s, pos).Some?
    ensures var e := Run(p, s, pos).value; e == |s| || !InClass(p[|p| - 1].cc, s[e])
    decreases |p|, |s| - pos
  {
    var consume := pos < |s| && InClass(p[0].cc, s[pos]);
    if |p| > 1 {
      assert p[1..][|p[1..]| - 1] == p[|p| - 1];
    }
    match p[0]
    case One(cc) =>
      RunStarLast(p[1..], s, pos + 1);
    case Opt(cc) =>
      if consume && Run(p[1..], s, pos + 1).Some? {
        RunStarLast(p[1..], s, pos + 1);
      } else {
        RunStarLast(p[1..], s, pos);
      }
    case Star(cc) =>
      if consume && Run(p, s, pos + 1).Some? {
        RunStarLast(p, s, pos + 1);
      } else if |p| > 1 {
        RunStarLast(p[1..], s, pos);
      } else if consume {
        assert Matches(p, s[pos + 1..pos + 1]);
        RunComplete(p, s, pos + 1, pos + 1);
        assert false;
      }
  }

  /** w belongs to the language of one of the alternatives `a|b|...`. */
  predicate MatchesAny(alts: seq<Pattern>, w: string) {
    exists p | p in alts :: Matches(p, w)
  }

  /** The engine on alternatives: the first alternative that succeeds wins. */
  function RunAlt(alts: seq<Pattern>, s: string, pos: nat): (r: Option<nat>)
    requires pos <= |s|
    ensures r.Some? ==> pos <= r.value <= |s| && MatchesAny(alts, s[pos..r.value])
    ensures r.None? ==> forall e | pos <= e <= |s| :: !MatchesAny(alts, s[pos..e])
  {
    if alts == [] then None
    else
      var r := Run(alts[0], s, pos);
      if r.Some? then
        RunSound(alts[0], s, pos);
        r
      else
        var rest := RunAlt(alts[1..], s, pos);
        assert forall p | p in alts :: p == alts[0] || p in alts[1..];
        forall e | pos <= e <= |s| && Matches(alts[0], s[pos..e]) ensures false {
          RunComplete(alts[0], s, pos, e);
        }
        rest
  }

  /**
   * The alternatives are tried in the order written: the engine's result is
   * that of the first alternative that succeeds, and every earlier one
   * fails there.
   */
  lemma {:induction false} RunAltFirst(alts: seq<Pattern>, s: string, pos: nat) returns (k: nat)
    requires pos <= |s|
    requires RunAlt(alts, s, pos).Some?
    ensures k < |alts| && Run(alts[k], s, pos) == RunAlt(alts, s, pos)
    ensures forall j | 0 <= j < k :: Run(alts[j], s, pos).None?
  {
    if Run(alts[0], s, pos).Some? {
      k := 0;
    } else {
      var k' := RunAltFirst(alts[1..], s, pos);
      k := k' + 1;
      assert forall j | 1 <= j < k :: alts[j] == alts[1..][j - 1];
    }
  }

  /** A match [start, end) of a search. */
  datatype Span = Span(start: nat, end: nat)

  /** Some alternative matches s[i..e]. */
  ghost predicate MatchesIn(alts: seq<Pattern>, s: string, i: nat, e: nat) {
    i <= e <= |s| && MatchesAny(alts, s[i..e])
  }

  /** The pattern matches somewhere in s: what `re.search` reports as truthy. */
  ghost predicate Occurs(alts: seq<Pattern>, s: string) {
    exists i: nat, e: nat :: MatchesIn(alts, s, i, e)
  }

  function SearchFrom(alts: seq<Pattern>, s: string, i: nat): (r: Option<Span>)
    requires i <= |s|
    ensures r.Some? ==> i <= r.value.start && MatchesIn(alts, s, r.value.start, r.value.end)
    ensures r.Some? ==> RunAlt(alts, s, r.value.start) == Some(r.value.end)
    ensures r.Some? ==> forall j: nat, e: nat | i <= j < r.value.start :: !MatchesIn(alts, s, j, e)
    ensures r.None? ==> forall j: nat, e: nat | i <= j :: !MatchesIn(alts, s, j, e)
    decreases |s| - i
  {
    var m := RunAlt(alts, s, i);
    if m.Some? then Some(Span(i, m.value))
    else if i == |s| then None
    else SearchFrom(alts, s, i + 1)
  }

  /**
   * `re.search(pattern, s)`: the leftmost position where the pattern
   * matches, with the end the engine prefers there; None when the pattern
   * matches nowhere.
   */
  function Search(alts: seq<Pattern>, s: string): (r: Option<Span>)
    ensures r.Some? ==> MatchesIn(alts, s, r.value.start, r.value.end)
    ensures r.Some? ==> forall j: nat, e: nat | j < r.value.start :: !MatchesIn(alts, s, j, e)
    ensures r.Some? ==> RunAlt(alts, s, r.value.start) == Some(r.value.end)
    ensures r.None? <==> !Occurs(alts, s)
  {
    SearchFrom(alts, s, 0)
  }

  /** The substring that `Search` found. */
  function Found(s: string, span: Span): (w: string)
    requires span.start <= span.end <= |s|
    ensures Contains(s, w)
  {
    assert OccursAt(s, s[span.start..span.end], span.start);
    s[span.start..span.end]
  }

  /** Concatenating a match of p and a match of q gives a match of p + q. */
  lemma {:induction false} MatchesAppend(p: Pattern, q: Pattern, u: string, v: string)
    requires Matches(p, u) && Matches(q, v)
    ensures Matches(p + q, u + v)
    decreases |p|, |u|
  {
    if p == [] {
      assert p + q == q && u + v == v;
    } else {
      assert (p + q)[0] == p[0] && (p + q)[1..] == p[1..] + q;
      var consume := |u| > 0 && InClass(p[0].cc, u[0]);
      if consume {
        assert (u + v)[0] == u[0] && (u + v)[1..] == u[1..] + v;
      }
      match p[0]
      case One(cc) =>
        MatchesAppend(p[1..], q, u[1..], v);
      case Opt(cc) =>
        if consume && Matches(p[1..], u[1..]) {
          MatchesAppend(p[1..], q, u[1..], v);
        } else {
          MatchesAppend(p[1..], q, u, v);
        }
      case Star(cc) =>
        if consume && Matches(p, u[1..]) {
          MatchesAppend(p, q, u[1..], v);
        } else {
          MatchesAppend(p[1..], q, u, v);
        }
    }
  }

  /** A match of p + q splits into a match of p followed by a match of q. */
  lemma {:induction false} MatchesSplit(p: Pattern, q: Pattern, w: string) returns (k: nat)
    requires Matches(p + q, w)
    ensures k <= |w| && Matches(p, w[..k]) && Matches(q, w[k..])
    decreases |p|, |w|
  {
    if p == [] {
      assert p + q == q;
      k := 0;
      assert w[k..] == w;
    } else {
      assert (p + q)[0] == p[0] && (p + q)[1..] == p[1..] + q;
      var consume := |w| > 0 && InClass(p[0].cc, w[0]);
      match p[0]
      case One(cc) =>
        var k' := MatchesSplit(p[1..], q, w[1..]);
        k := k' + 1;
        assert w[..k][1..] == w[1..][..k'] && w[k..] == w[1..][k'..];
      case Opt(cc) =>
        if consume && Matches(p[1..] + q, w[1..]) {
          var k' := MatchesSplit(p[1..], q, w[1..]);
          k := k' + 1;
          assert w[..k][1..] == w[1..][..k'] && w[k..] == w[1..][k'..];
        } else {
          k := MatchesSplit(p[1..], q, w);
        }
      case Star(cc) =>
        if consume && Matches(p + q, w[1..]) {
          var k' := MatchesSplit(p, q, w[1..]);
          k := k' + 1;
          assert w[..k][1..] == w[1..][..k'] && w[k..] == w[1..][k'..];
        } else {
          k := MatchesSplit(p[1..], q, w);
        }
    }
  }

  /** A pattern that occurs in part of a text occurs in the whole text. */
  lemma OccursInSlice(alts: seq<Pattern>, s: string, a: nat, b: nat)
    requires a <= b <= |s|
    requires Occurs(alts, s[a..b])
    ensures Occurs(alts, s)
  {
    var i: nat, e: nat :| MatchesIn(alts, s[a..b], i, e);
    var inner, outer := s[a..b][i..e], s[a + i..a + e];
    forall k | 0 <= k < e - i ensures inner[k] == outer[k] {
    }
    assert inner == outer;
    assert MatchesIn(alts, s, a + i, a + e);
  }

  /** `\d{n}`: exactly n digits. */
  function Digits(n: nat): (p: Pattern)
    ensures |p| == n
    ensures forall k | 0 <= k < n :: p[k] == One(Digit)
  {
    if n == 0 then [] else [One(Digit)] + Digits(n - 1)
  }

  /** `\d{n}` matches exactly the strings of n digits. */
  lemma {:induction false} MatchesDigits(n: nat, w: string)
    ensures Matches(Digits(n), w) <==> |w| == n && forall k | 0 <= k < |w| :: IsDigit(w[k])
    decreases n
  {
    if n > 0 {
      assert Digits(n)[1..] == Digits(n - 1);
      if |w| > 0 {
        MatchesDigits(n - 1, w[1..]);
        assert forall k | 1 <= k < |w| :: w[k] == w[1..][k - 1];
      }
    }
  }

  /** A literal pattern matches exactly its own text. */
  lemma {:induction false} MatchesLiteral(u: string, w: string)
    ensures Matches(Literal(u), w) <==> w == u
    decreases |u|
  {
    if u != [] {
      assert Literal(u)[1..] == Literal(u[1..]);
      if |w| > 0 {
        MatchesLiteral(u[1..], w[1..]);
        assert w == [w[0]] + w[1..] && u == [u[0]] + u[1..];
      }
    }
  }

  /** A character of the class followed by a match of q matches `x` then q. */
  lemma MatchesOneThen(cc: CharClass, q: Pattern, c: char, v: string)
    requires InClass(cc, c) && Matches(q, v)
    ensures Matches([One(cc)] + q, [c] + v)
  {
    assert ([One(cc)] + q)[1..] == q;
    assert ([c] + v)[1..] == v;
  }

  /** `x?` may match nothing: a match of q is a match of `x?` then q. */
  lemma MatchesOptSkip(cc: CharClass, q: Pattern, v: string)
    requires Matches(q, v)
    ensures Matches([Opt(cc)] + q, v)
  {
    assert ([Opt(cc)] + q)[1..] == q;
  }

  /** A match of `x?` then q is a match of q after at most one character. */
  lemma MatchesOptThen(cc: CharClass, q: Pattern, w: string) returns (m: nat)
    requires Matches([Opt(cc)] + q, w)
    ensures m <= 1 && m <= |w| && Matches(q, w[m..])
  {
    assert ([Opt(cc)] + q)[1..] == q;
    if |w| > 0 && InClass(cc, w[0]) && Matches(q, w[1..]) {
      m := 1;
    } else {
      m := 0;
      assert w[0..] == w;
    }
  }

  /** A run of characters of the class followed by a match of q matches `x*` then q. */
  lemma {:induction false} MatchesStarRun(cc: CharClass, q: Pattern, u: string, v: string)
    requires forall k | 0 <= k < |u| :: InClass(cc, u[k])
    requires Matches(q, v)
    ensures Matches([Star(cc)] + q, u + v)
    decreases |u|
  {
    assert ([Star(cc)] + q)[1..] == q;
    if u == [] {
      assert u + v == v;
    } else {
      MatchesStarRun(cc, q, u[1..], v);
      assert (u + v)[1..] == u[1..] + v;
    }
  }

  /** A non-empty run of characters of the class followed by a match of q matches `x+` then q. */
  lemma MatchesPlusThen(cc: CharClass, q: Pattern, u: string, v: string)
    requires u != [] && forall k | 0 <= k < |u| :: InClass(cc, u[k])
    requires Matches(q, v)
    ensures Matches([One(cc)] + ([Star(cc)] + q), u + v)
  {
    MatchesStarRun(cc, q, u[1..], v);
    MatchesOneThen(cc, [Star(cc)] + q, u[0], u[1..] + v);
    assert [u[0]] + (u[1..] + v) == u + v;
  }

  /** What `x*` matches on its own is a run of characters of the class. */
  lemma {:induction false} StarMatchesRun(cc: CharClass, w: string)
    requires Matches([Star(cc)], w)
    ensures forall k | 0 <= k < |w| :: InClass(cc, w[k])
    decreases |w|
  {
    assert [Star(cc)][1..] == [];
    if w != [] {
      StarMatchesRun(cc, w[1..]);
      assert forall k | 1 <= k < |w| :: w[k] == w[1..][k - 1];
    }
  }

  /** What `x+` matches on its own is a non-empty run of characters of the class. */
  lemma PlusMatchesRun(cc: CharClass, w: string)
    requires Matches([One(cc), Star(cc)], w)
    ensures w != [] && forall k | 0 <= k < |w| :: InClass(cc, w[k])
  {
    assert [One(cc), Star(cc)][1..] == [Star(cc)];
    StarMatchesRun(cc, w[1..]);
    assert forall k | 1 <= k < |w| :: w[k] == w[1..][k - 1];
  }

  /** Every `One` element of a pattern consumes a character of its class. */
  lemma {:induction false} MatchesUsesOne(p: Pattern, w: string, j: nat)
    requires j < |p| && p[j].One?
    requires Matches(p, w)
    ensures exists k :: 0 <= k < |w| && InClass(p[j].cc, w[k])
    decreases |p|, |w|
  {
    if j == 0 {
      assert InClass(p[j].cc, w[0]);
    } else {
      assert p[1..][j - 1] == p[j];
      var consume := |w| > 0 && InClass(p[0].cc, w[0]);
      var rest: string;
      match p[0]
      case One(cc) =>
        MatchesUsesOne(p[1..], w[1..], j - 1);
        rest := w[1..];
      case Opt(cc) =>
        if consume && Matches(p[1..], w[1..]) {
          MatchesUsesOne(p[1..], w[1..], j - 1);
          rest := w[1..];
        } else {
          MatchesUsesOne(p[1..], w, j - 1);
          rest := w;
        }
      case Star(cc) =>
        if consume && Matches(p, w[1..]) {
          MatchesUsesOne(p, w[1..], j);
          rest := w[1..];
        } else {
          MatchesUsesOne(p[1..], w, j - 1);
          rest := w;
        }
      var k :| 0 <= k < |rest| && InClass(p[j].cc, rest[k]);
      assert rest[k] == w[k + |w| - |rest|];
    }
  }
}
