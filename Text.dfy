/**
 * Character classes and the Python string operations that the resume
 * analyzer relies on: `str.lower()`, `s in t`, `str.split()`,
 * `str.split('\n')`, `str.strip()` and the word tokenizer
 * `re.findall(r'\b\w+\b', s)`.
 *
 * Python's versions are Unicode-aware. These definitions agree with them on
 * ASCII text; other characters are never letters, digits, word characters
 * or whitespace here, and `ToLower` leaves them unchanged.
 */
module Text {

  predicate IsDigit(c: char) { '0' <= c <= '9' }

  predicate IsUpper(c: char) { 'A' <= c <= 'Z' }

  predicate IsLowerLetter(c: char) { 'a' <= c <= 'z' }

  predicate IsAlpha(c: char) { IsUpper(c) || IsLowerLetter(c) }

  /** `\w` on ASCII: [A-Za-z0-9_]. */
  predicate IsWord(c: char) { IsAlpha(c) || IsDigit(c) || c == '_' }

  /**
   * `str.isspace()` and `\s` on ASCII: space, the controls \t \n \v \f \r,
   * and the information separators 0x1C..0x1F, which Python also counts as
   * whitespace.
   */
  predicate IsSpace(c: char) {
    c == ' ' || ('\t' <= c <= '\r') || ('\U{1C}' <= c <= '\U{1F}')
  }

  predicate NotSpace(c: char) { !IsSpace(c) }

  predicate NotNewline(c: char) { c != '\n' }

  function ToLower(c: char): (d: char)
    ensures !IsUpper(d)
    ensures IsAlpha(c) <==> IsAlpha(d)
    ensures IsWord(c) <==> IsWord(d)
    ensures !IsUpper(c) ==> d == c
  {
    if IsUpper(c) then (c as int + 32) as char else c
  }

  /** `s.lower()`, character by character. */
  function Lower(s: string): (r: string)
    ensures |r| == |s|
    ensures forall i | 0 <= i < |s| :: r[i] == ToLower(s[i])
    ensures forall i | 0 <= i < |r| :: !IsUpper(r[i])
    ensures forall i | 0 <= i < |s| :: IsAlpha(s[i]) <==> IsAlpha(r[i])
    ensures forall i | 0 <= i < |s| :: !IsUpper(s[i]) ==> r[i] == s[i]
  {
    seq(|s|, i requires 0 <= i < |s| => ToLower(s[i]))
  }

  function ToUpper(c: char): (d: char)
    ensures !IsLowerLetter(d)
    ensures IsAlpha(c) <==> IsAlpha(d)
    ensures IsAlpha(c) ==> IsUpper(d)
    ensures !IsLowerLetter(c) ==> d == c
  {
    if IsLowerLetter(c) then (c as int - 32) as char else c
  }

  /** The letter at index i of s, if any, starts a run of letters. */
  predicate StartsRun(s: string, i: nat)
    requires i < |s|
  {
    i == 0 || !IsAlpha(s[i - 1])
  }

  /** Concatenation is associative. */
  lemma ConcatAssoc<T>(a: seq<T>, b: seq<T>, c: seq<T>)
    ensures a + (b + c) == a + b + c
  {
  }

  /**
   * `s.title()`: a letter is upper-cased when it starts a run of letters and
   * lower-cased otherwise; every other character is kept.
   */
  function TitleCase(s: string): (r: string)
    ensures |r| == |s|
    ensures forall i | 0 <= i < |s| :: !IsAlpha(s[i]) ==> r[i] == s[i]
    ensures forall i | 0 <= i < |s| :: IsAlpha(s[i]) ==> (IsUpper(r[i]) <==> StartsRun(s, i))
  {
    seq(|s|, i requires 0 <= i < |s| => if StartsRun(s, i) then ToUpper(s[i]) else ToLower(s[i]))
  }

  lemma LowerSlice(s: string, a: nat, b: nat)
    requires a <= b <= |s|
    ensures Lower(s[a..b]) == Lower(s)[a..b]
  {
  }

  lemma LowerIdempotent(s: string)
    ensures Lower(Lower(s)) == Lower(s)
  {
  }

  /** sub occurs in s starting at index i. */
  predicate OccursAt(s: string, sub: string, i: nat) {
    i + |sub| <= |s| && s[i..i + |sub|] == sub
  }

  /** Python's `sub in s`: sub occurs in s as a contiguous substring. */
  predicate Contains(s: string, sub: string) {
    exists i | 0 <= i <= |s| :: OccursAt(s, sub, i)
  }

  /** `any(kw in s for kw in kws)`. */
  predicate ContainsAny(s: string, kws: seq<string>) {
    exists k | 0 <= k < |kws| :: Contains(s, kws[k])
  }

  /** Containment survives extending the text on either side. */
  lemma {:induction false} ContainsSlice(s: string, a: nat, b: nat, sub: string)
    requires a <= b <= |s|
    requires Contains(s[a..b], sub)
    ensures Contains(s, sub)
  {
    var i :| 0 <= i <= b - a && OccursAt(s[a..b], sub, i);
    assert i + |sub| <= b - a;
    var inner, outer := s[a..b][i..i + |sub|], s[a + i..a + i + |sub|];
    forall k | 0 <= k < |sub| ensures inner[k] == outer[k] {
    }
    assert inner == outer;
    assert OccursAt(s, sub, a + i);
  }

  /** `sum(1 for kw in kws if kw in s)`: how many entries of kws occur in s. */
  function CountContained(s: string, kws: seq<string>): (n: nat)
    ensures n <= |kws|
    ensures n == 0 <==> !ContainsAny(s, kws)
    ensures n == |kws| <==> forall k | 0 <= k < |kws| :: Contains(s, kws[k])
  {
    if kws == [] then 0
    else
      var rest := CountContained(s, kws[1..]);
      assert forall kw | kw in kws :: kw == kws[0] || kw in kws[1..];
      assert forall k | 1 <= k < |kws| :: kws[k] == kws[1..][k - 1];
      (if Contains(s, kws[0]) then 1 else 0) + rest
  }

  /**
   * The keyword tally is the generic tally with the test `kw in s`; it is
   * kept as its own recursion so that unfolding it over a literal keyword
   * list stays cheap.
   */
  lemma {:induction false} CountContainedIsCountIf(s: string, kws: seq<string>)
    ensures CountContained(s, kws) == CountIf(kws, kw => Contains(s, kw))
    decreases |kws|
  {
    if kws != [] {
      CountContainedIsCountIf(s, kws[1..]);
    }
  }

  /** Length of the longest prefix of s whose characters all satisfy cls. */
  function RunLength(s: string, cls: char -> bool): (n: nat)
    ensures n <= |s|
    ensures forall i | 0 <= i < n :: cls(s[i])
    ensures n < |s| ==> !cls(s[n])
  {
    if s == [] || !cls(s[0]) then 0 else 1 + RunLength(s[1..], cls)
  }

  /** The maximal runs of characters satisfying cls, from left to right. */
  function Runs(s: string, cls: char -> bool): (rs: seq<string>)
    ensures forall r | r in rs :: r != [] && forall c | c in r :: cls(c)
    ensures rs == [] <==> forall i | 0 <= i < |s| :: !cls(s[i])
    decreases |s|
  {
    if s == [] then []
    else if !cls(s[0]) then
      var rest := Runs(s[1..], cls);
      assert forall i | 1 <= i < |s| :: s[i] == s[1..][i - 1];
      rest
    else
      var n := RunLength(s, cls);
      [s[..n]] + Runs(s[n..], cls)
  }

  /** A character outside the class ends the leading run of the class at the latest. */
  lemma {:induction false} RunLengthSplit(a: string, c: char, b: string, cls: char -> bool)
    requires !cls(c)
    ensures RunLength(a + [c] + b, cls) == RunLength(a, cls)
    decreases |a|
  {
    if a != [] && cls(a[0]) {
      assert (a + [c] + b)[1..] == a[1..] + [c] + b;
      RunLengthSplit(a[1..], c, b, cls);
    }
  }

  /** A character outside the class separates the runs before it from those after it. */
  lemma {:induction false} RunsSplit(a: string, c: char, b: string, cls: char -> bool)
    requires !cls(c)
    ensures Runs(a + [c] + b, cls) == Runs(a, cls) + Runs(b, cls)
    decreases |a|
  {
    var s := a + [c] + b;
    if a == [] {
      assert s[1..] == b;
      assert Runs(s, cls) == Runs(b, cls);
    } else if !cls(a[0]) {
      assert s[1..] == a[1..] + [c] + b;
      RunsSplit(a[1..], c, b, cls);
      assert Runs(s, cls) == Runs(s[1..], cls);
      assert Runs(a, cls) == Runs(a[1..], cls);
    } else {
      var n := RunLength(a, cls);
      RunLengthSplit(a, c, b, cls);
      assert s[..n] == a[..n] && s[n..] == a[n..] + [c] + b;
      RunsSplit(a[n..], c, b, cls);
      assert Runs(s, cls) == [a[..n]] + (Runs(a[n..], cls) + Runs(b, cls));
      assert Runs(a, cls) == [a[..n]] + Runs(a[n..], cls);
      ConcatAssoc([a[..n]], Runs(a[n..], cls), Runs(b, cls));
    }
  }

  /** A string made only of characters of the class has that class's full length as leading run. */
  lemma RunLengthWhole(u: string, cls: char -> bool)
    requires forall i | 0 <= i < |u| :: cls(u[i])
    ensures RunLength(u, cls) == |u|
  {
  }

  /** A non-empty run of class characters is a single token. */
  lemma RunsOfRun(u: string, cls: char -> bool)
    requires u != [] && forall i | 0 <= i < |u| :: cls(u[i])
    ensures Runs(u, cls) == [u]
  {
    RunLengthWhole(u, cls);
    assert u[..|u|] == u && u[|u|..] == [];
  }

  /** `s.split()`: the maximal runs of non-whitespace characters. */
  function Words(s: string): seq<string> {
    Runs(s, NotSpace)
  }

  /** `len(s.split())`. */
  function WordCount(s: string): nat {
    |Words(s)|
  }

  /** Joining two texts with a space adds their word counts. */
  lemma WordCountSplit(a: string, b: string)
    ensures WordCount(a + " " + b) == WordCount(a) + WordCount(b)
  {
    assert a + " " + b == a + [' '] + b;
    RunsSplit(a, ' ', b, NotSpace);
  }

  /** A non-empty text without whitespace is one word. */
  lemma OneWord(u: string)
    requires u != [] && forall i | 0 <= i < |u| :: !IsSpace(u[i])
    ensures WordCount(u) == 1
  {
    RunsOfRun(u, NotSpace);
  }

  /** `re.findall(r'\b\w+\b', s)`: the maximal runs of word characters. */
  function WordTokens(s: string): seq<string> {
    Runs(s, IsWord)
  }

  /** `s.split('\n')`: the pieces between newlines; there is always at least one. */
  function SplitLines(s: string): (lines: seq<string>)
    ensures |lines| >= 1
    ensures forall l | l in lines :: '\n' !in l
    decreases |s|
  {
    var n := RunLength(s, NotNewline);
    assert '\n' !in s[..n] by {
      forall i | 0 <= i < n ensures s[..n][i] != '\n' { assert NotNewline(s[i]); }
    }
    if n == |s| then [s] else [s[..n]] + SplitLines(s[n + 1..])
  }

  /** `"\n".join(lines)`. */
  function JoinLines(lines: seq<string>): string
    requires |lines| >= 1
  {
    if |lines| == 1 then lines[0] else lines[0] + "\n" + JoinLines(lines[1..])
  }

  /** Joining a first line and further lines puts one newline between them. */
  lemma JoinCons(line: string, lines: seq<string>)
    requires |lines| >= 1
    ensures JoinLines([line] + lines) == line + "\n" + JoinLines(lines)
  {
    assert ([line] + lines)[0] == line && ([line] + lines)[1..] == lines;
  }

  /** A text is its part before a newline, the newline and its part after. */
  lemma SplitAtNewline(s: string, n: nat)
    requires n < |s| && s[n] == '\n'
    ensures s == s[..n] + "\n" + s[n + 1..]
  {
  }

  /** Splitting on newlines and joining again gives the text back. */
  lemma {:induction false} JoinSplitLines(s: string)
    ensures JoinLines(SplitLines(s)) == s
    decreases |s|
  {
    var n := RunLength(s, NotNewline);
    if n == |s| {
      assert SplitLines(s) == [s];
    } else {
      var rest := s[n + 1..];
      assert SplitLines(s) == [s[..n]] + SplitLines(rest);
      JoinSplitLines(rest);
      JoinCons(s[..n], SplitLines(rest));
      SplitAtNewline(s, n);
    }
  }

  /** Joining newline-free pieces and splitting again gives the pieces back. */
  lemma {:induction false} SplitJoinLines(lines: seq<string>)
    requires |lines| >= 1
    requires forall l | l in lines :: '\n' !in l
    ensures SplitLines(JoinLines(lines)) == lines
    decreases |lines|
  {
    var s := JoinLines(lines);
    var n := RunLength(s, NotNewline);
    NewlineFreeRun(lines[0]);
    if |lines| == 1 {
      assert n == |s|;
    } else {
      var tail := JoinLines(lines[1..]);
      assert s == lines[0] + ("\n" + tail) by {
        ConcatAssoc(lines[0], "\n", tail);
      }
      RunLengthPrefix(lines[0], "\n" + tail);
      assert s[..n] == lines[0] && s[n + 1..] == tail;
      assert forall l | l in lines[1..] :: l in lines;
      SplitJoinLines(lines[1..]);
      assert SplitLines(s) == [lines[0]] + lines[1..];
    }
  }

  lemma NewlineFreeRun(l: string)
    requires '\n' !in l
    ensures RunLength(l, NotNewline) == |l|
  {
    if l != [] {
      assert l[0] in l;
      assert '\n' !in l[1..] by {
        forall i | 0 <= i < |l| - 1 ensures l[1..][i] != '\n' { assert l[i + 1] in l; }
      }
      NewlineFreeRun(l[1..]);
    }
  }

  lemma {:induction false} RunLengthPrefix(l: string, t: string)
    requires RunLength(l, NotNewline) == |l|
    requires t != [] && t[0] == '\n'
    ensures RunLength(l + t, NotNewline) == |l|
    decreases |l|
  {
    if l != [] {
      assert (l + t)[1..] == l[1..] + t;
      RunLengthPrefix(l[1..], t);
    }
  }

  /** Drops the leading whitespace of s. */
  function TrimStart(s: string): (r: string)
    ensures |r| <= |s| && r == s[|s| - |r|..]
    ensures forall i | 0 <= i < |s| - |r| :: IsSpace(s[i])
    ensures r == [] || !IsSpace(r[0])
  {
    if s != [] && IsSpace(s[0]) then TrimStart(s[1..]) else s
  }

  /** Drops the trailing whitespace of s. */
  function TrimEnd(s: string): (r: string)
    ensures |r| <= |s| && r == s[..|r|]
    ensures forall i | |r| <= i < |s| :: IsSpace(s[i])
    ensures r == [] || !IsSpace(r[|r| - 1])
  {
    if s != [] && IsSpace(s[|s| - 1]) then TrimEnd(s[..|s| - 1]) else s
  }

  /** `s.strip()`. */
  function Strip(s: string): (r: string)
    ensures Contains(s, r)
    ensures r == [] <==> forall i | 0 <= i < |s| :: IsSpace(s[i])
    ensures r != [] ==> !IsSpace(r[0]) && !IsSpace(r[|r| - 1])
  {
    var t := TrimStart(s);
    var r := TrimEnd(t);
    assert s[|s| - |t|..|s| - |t| + |r|] == r;
    assert OccursAt(s, r, |s| - |t|);
    r
  }

  /** `line.strip() == ''`. */
  predicate IsBlank(line: string) {
    Strip(line) == ""
  }

  /** `sum(1 for x in xs if p(x))`. */
  function CountIf<T>(xs: seq<T>, p: T -> bool): (n: nat)
    ensures n <= |xs|
  {
    if xs == [] then 0 else (if p(xs[0]) then 1 else 0) + CountIf(xs[1..], p)
  }

  /** The indices of the elements of xs that satisfy p. */
  function Indices<T>(xs: seq<T>, p: T -> bool): set<int> {
    set i | 0 <= i < |xs| && p(xs[i])
  }

  /** The tally is taken separately on the two halves of a list. */
  lemma {:induction false} CountIfAppend<T>(a: seq<T>, b: seq<T>, p: T -> bool)
    ensures CountIf(a + b, p) == CountIf(a, p) + CountIf(b, p)
    decreases |a|
  {
    if a == [] {
      assert a + b == b;
    } else {
      assert (a + b)[1..] == a[1..] + b;
      CountIfAppend(a[1..], b, p);
    }
  }

  /** The tally counts exactly the indices whose element satisfies p. */
  lemma {:induction false} CountIfIndices<T>(xs: seq<T>, p: T -> bool)
    ensures CountIf(xs, p) == |Indices(xs, p)|
    decreases |xs|
  {
    if xs == [] {
      assert Indices(xs, p) == {};
    } else {
      var init, last := xs[..|xs| - 1], xs[|xs| - 1];
      assert xs == init + [last];
      CountIfIndices(init, p);
      CountIfAppend(init, [last], p);
      assert CountIf([last], p) == if p(last) then 1 else 0;
      assert forall i | 0 <= i < |init| :: init[i] == xs[i];
      assert |init| !in Indices(init, p);
      if p(last) {
        assert Indices(xs, p) == Indices(init, p) + {|init|};
      } else {
        assert Indices(xs, p) == Indices(init, p);
      }
    }
  }

  /** The indices of the blank lines. */
  function BlankIndices(lines: seq<string>): set<int> {
    Indices(lines, IsBlank)
  }

  /** `sum(1 for line in lines if line.strip() == '')`: the number of blank lines. */
  function CountBlank(lines: seq<string>): (n: nat)
    ensures n <= |lines|
  {
    CountIf(lines, IsBlank)
  }

  /** The tally of blank lines is the number of lines that are blank. */
  lemma CountBlankCounts(lines: seq<string>)
    ensures CountBlank(lines) == |BlankIndices(lines)|
  {
    CountIfIndices(lines, IsBlank);
  }

  /** `[x for x in xs if p(x)]`. */
  function Filter<T>(xs: seq<T>, p: T -> bool): (ys: seq<T>)
    ensures |ys| <= |xs|
    ensures forall y | y in ys :: y in xs && p(y)
    ensures forall x | x in xs && p(x) :: x in ys
  {
    if xs == [] then []
    else
      assert forall x | x in xs :: x == xs[0] || x in xs[1..];
      (if p(xs[0]) then [xs[0]] else []) + Filter(xs[1..], p)
  }

  /** Filtering keeps every repeat of a kept element and drops every other element. */
  lemma {:induction false} FilterCounts<T>(xs: seq<T>, p: T -> bool)
    ensures forall x :: multiset(Filter(xs, p))[x] == if p(x) then multiset(xs)[x] else 0
    decreases |xs|
  {
    if xs != [] {
      FilterCounts(xs[1..], p);
      assert xs == [xs[0]] + xs[1..];
      assert multiset(xs) == multiset{xs[0]} + multiset(xs[1..]);
    }
  }
}
