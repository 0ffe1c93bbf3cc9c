/**
 * The parts of Python's `str` that the pipeline relies on, on `seq<char>`
 * (a Dafny `char` is a Unicode scalar value, so `|s|` is Python's `len(s)`):
 * `isspace`, `strip`, `split()`, `split(sep)`, `" ".join`, `startswith`, `in`,
 * `replace`, `find`, `zfill`, slicing `s[:n]`, `lower` (ASCII letters only)
 * and the code-point order that `sorted` uses.
 */
module PyStr {

  /** Python's `str.isspace` for one character. */
  predicate IsSpace(c: char) {
    c == ' ' || c == '\t' || c == '\n' || c == '\r' || c == '\U{0B}' || c == '\U{0C}'
    || ('\U{1C}' <= c <= '\U{1F}') || c == '\U{85}' || c == '\U{A0}' || c == '\U{1680}'
    || ('\U{2000}' <= c <= '\U{200A}') || c == '\U{2028}' || c == '\U{2029}'
    || c == '\U{202F}' || c == '\U{205F}' || c == '\U{3000}'
  }

  /** A non-empty run of non-space characters: what `split()` yields. */
  predicate IsWord(w: string) {
    |w| > 0 && forall i :: 0 <= i < |w| ==> !IsSpace(w[i])
  }

  /** `xs[:n]` on a list, for `n >= 0`. */
  function Take<T>(s: seq<T>, n: nat): (r: seq<T>)
    ensures |r| == if |s| <= n then |s| else n
    ensures r == s[..|r|]
  {
    if |s| <= n then s else s[..n]
  }

  /** `s[:n]` for `n >= 0`. */
  function Prefix(s: string, n: nat): (r: string)
    ensures |r| <= n && |r| <= |s|
    ensures |s| <= n ==> r == s
    ensures |s| > n ==> |r| == n
    ensures r == s[..|r|]
  {
    if |s| <= n then s else s[..n]
  }

  /** `s.lstrip()` */
  function StripLeft(s: string): (r: string)
    ensures |r| <= |s| && r == s[|s| - |r|..]
    ensures r == [] || !IsSpace(r[0])
    ensures forall i :: 0 <= i < |s| - |r| ==> IsSpace(s[i])
  {
    if |s| > 0 && IsSpace(s[0]) then StripLeft(s[1..]) else s
  }

  /** `s.rstrip()` */
  function StripRight(s: string): (r: string)
    ensures |r| <= |s| && r == s[..|r|]
    ensures r == [] || !IsSpace(r[|r| - 1])
    ensures forall i :: |r| <= i < |s| ==> IsSpace(s[i])
  {
    if |s| > 0 && IsSpace(s[|s| - 1]) then StripRight(s[..|s| - 1]) else s
  }

  /** `s.strip()` */
  function Strip(s: string): string {
    StripRight(StripLeft(s))
  }

  /** `s.lower()`, restricted to the ASCII letters. */
  function Lower(s: string): (r: string)
    ensures |r| == |s|
  {
    seq(|s|, i requires 0 <= i < |s| => if 'A' <= s[i] <= 'Z' then (s[i] as int + 32) as char else s[i])
  }

  /** `s.startswith(p)` */
  predicate StartsWith(s: string, p: string) {
    |p| <= |s| && s[..|p|] == p
  }

  /** `s.endswith(p)` */
  predicate EndsWith(s: string, p: string) {
    |p| <= |s| && s[|s| - |p|..] == p
  }

  /** `p in s` for strings: `p` occurs in `s` at some offset. */
  predicate Contains(s: string, p: string)
    decreases |s|
  {
    StartsWith(s, p) || (|s| > 0 && Contains(s[1..], p))
  }

  /** Length of the run of non-space characters that starts `s`. */
  function WordLen(s: string): (n: nat)
    ensures n <= |s|
    ensures forall i :: 0 <= i < n ==> !IsSpace(s[i])
    ensures n == |s| || IsSpace(s[n])
  {
    if |s| == 0 || IsSpace(s[0]) then 0 else 1 + WordLen(s[1..])
  }

  /** `s.split()`: the maximal runs of non-space characters, in order. */
  function Words(s: string): seq<string>
    decreases |s|
  {
    if |s| == 0 then []
    else if IsSpace(s[0]) then Words(s[1..])
    else
      var n := WordLen(s);
      assert n > 0 by { assert WordLen(s) == 1 + WordLen(s[1..]); }
      [s[..n]] + Words(s[n..])
  }

  /** `sep.join(ws)` */
  function Join(ws: seq<string>, sep: string): string {
    if |ws| == 0 then ""
    else if |ws| == 1 then ws[0]
    else ws[0] + sep + Join(ws[1..], sep)
  }

  /** `s.split(c)` for a one-character separator. */
  function SplitOn(s: string, c: char): (r: seq<string>)
    ensures |r| >= 1
    ensures forall i :: 0 <= i < |r| ==> c !in r[i]
  {
    if |s| == 0 then [""]
    else if s[0] == c then [""] + SplitOn(s[1..], c)
    else
      var rest := SplitOn(s[1..], c);
      [[s[0]] + rest[0]] + rest[1..]
  }

  /** `s.replace(pat, rep)`: occurrences replaced left to right, without overlap. */
  function ReplaceAll(s: string, pat: string, rep: string): string
    requires |pat| > 0
    decreases |s|
  {
    if |s| == 0 then ""
    else if StartsWith(s, pat) then rep + ReplaceAll(s[|pat|..], pat, rep)
    else [s[0]] + ReplaceAll(s[1..], pat, rep)
  }

  /** `s.replace(c, "")` for one character `c`: every `c` dropped, the rest kept in order. */
  function RemoveChar(s: string, c: char): (r: string)
    ensures c !in r
    ensures forall x :: x != c ==> (x in r <==> x in s)
    ensures multiset(r) == multiset(s)[c := 0]
    ensures IsSubsequence(r, s)
    ensures |r| <= |s|
    decreases |s|
  {
    if |s| == 0 then ""
    else
      var init, last := s[..|s| - 1], s[|s| - 1];
      var rest := RemoveChar(init, c);
      SplitLast(s);
      RemoveLastStep(init, last, c, rest);
      if last == c then rest else rest + [last]
  }

  /** Does `sub` occur in `s` at offset `i`? */
  predicate OccursAt(s: string, sub: string, i: int) {
    0 <= i && i + |sub| <= |s| && s[i..i + |sub|] == sub
  }

  /** The scan behind `find`: lowest offset `>= i` where `sub` occurs, else -1. */
  function FindFrom(s: string, sub: string, i: nat): (r: int)
    decreases |s| - i
    ensures r == -1 || (i <= r && OccursAt(s, sub, r))
    ensures r != -1 ==> forall j :: i <= j < r ==> !OccursAt(s, sub, j)
  {
    if i + |sub| > |s| then -1
    else if s[i..i + |sub|] == sub then i
    else FindFrom(s, sub, i + 1)
  }

  /** `s.find(sub, start)`: a negative start counts from the end, as in slicing. */
  function Find(s: string, sub: string, start: int): int {
    var from := if start >= 0 then start else if start + |s| >= 0 then start + |s| else 0;
    FindFrom(s, sub, from)
  }

  /** `s.zfill(width)`: left-pad with '0' to `width`, keeping a leading sign first. */
  function ZFill(s: string, width: nat): (r: string)
    ensures |r| == if |s| >= width then |s| else width
    ensures |s| >= width ==> r == s
    ensures |s| < width && (s == [] || (s[0] != '+' && s[0] != '-')) ==>
              r[width - |s|..] == s && forall i :: 0 <= i < width - |s| ==> r[i] == '0'
  {
    if |s| >= width then s
    else if |s| > 0 && (s[0] == '+' || s[0] == '-') then [s[0]] + seq(width - |s|, _ => '0') + s[1..]
    else seq(width - |s|, _ => '0') + s
  }

  /** Decimal digits of `n`, as `str(n)` prints them. */
  function NatToString(n: nat): (r: string)
    ensures |r| >= 1
    ensures forall i :: 0 <= i < |r| ==> '0' <= r[i] <= '9'
  {
    var d := ['0' + (n % 10) as char];
    if n < 10 then d else NatToString(n / 10) + d
  }

  /** Different numbers print differently. */
  lemma {:induction false} NatToStringInjective(a: nat, b: nat)
    requires NatToString(a) == NatToString(b)
    ensures a == b
    decreases a
  {
    var ra, rb := NatToString(a), NatToString(b);
    if a >= 10 && b >= 10 {
      assert ra[..|ra| - 1] == NatToString(a / 10);
      assert rb[..|rb| - 1] == NatToString(b / 10);
      NatToStringInjective(a / 10, b / 10);
      assert ra[|ra| - 1] == rb[|rb| - 1];
    } else if a < 10 && b < 10 {
      assert ra[0] == rb[0];
    }
  }

  // ---------------------------------------------------------------
  // Facts about split(), strip() and join
  // ---------------------------------------------------------------

  lemma {:induction false} WordLenAppend(a: string, t: string)
    requires WordLen(a) < |a| || (|t| > 0 && IsSpace(t[0]))
    ensures WordLen(a + t) == WordLen(a)
    decreases |a|
  {
    if |a| == 0 {
    } else if IsSpace(a[0]) {
    } else {
      assert (a + t)[1..] == a[1..] + t;
      WordLenAppend(a[1..], t);
    }
  }

  /** Splitting at one whitespace character splits the word list there. */
  lemma {:induction false} WordsAtSpace(a: string, c: char, b: string)
    requires IsSpace(c)
    ensures Words(a + [c] + b) == Words(a) + Words(b)
    decreases |a|
  {
    if |a| == 0 {
      var s := a + [c] + b;
      assert s[1..] == b;
    } else if IsSpace(a[0]) {
      WordsAtSpace(a[1..], c, b);
      WordsAtSpaceSkip(a, c, b);
    } else {
      if WordLen(a) < |a| {
        WordsAtSpace(a[WordLen(a)..], c, b);
      }
      WordsAtSpaceWord(a, c, b);
    }
  }

  /** The step of `WordsAtSpace` over leading whitespace. */
  lemma WordsAtSpaceSkip(a: string, c: char, b: string)
    requires |a| > 0 && IsSpace(a[0])
    requires Words(a[1..] + [c] + b) == Words(a[1..]) + Words(b)
    ensures Words(a + [c] + b) == Words(a) + Words(b)
  {
    SliceAround(a, c, b, 1);
    WordsSkipSpace(a + [c] + b);
    WordsSkipSpace(a);
  }

  /** The step of `WordsAtSpace` over the leading word of `a`. */
  lemma WordsAtSpaceWord(a: string, c: char, b: string)
    requires IsSpace(c) && |a| > 0 && !IsSpace(a[0])
    requires WordLen(a) < |a| ==> Words(a[WordLen(a)..] + [c] + b) == Words(a[WordLen(a)..]) + Words(b)
    ensures Words(a + [c] + b) == Words(a) + Words(b)
  {
    var n := WordLen(a);
    SliceAround(a, c, b, 1);
    SliceAround(a, c, b, n);
    WordLenAround(a, c, b);
    WordsTakeWord(a + [c] + b);
    WordsTakeWord(a);
    WordsAfterWord(a, c, b);
    ConsAssoc(a[..n], Words(a[n..]), Words(b));
  }

  /** What follows the leading word of `a + [c] + b`, as words. */
  lemma WordsAfterWord(a: string, c: char, b: string)
    requires IsSpace(c)
    requires WordLen(a) < |a| ==> Words(a[WordLen(a)..] + [c] + b) == Words(a[WordLen(a)..]) + Words(b)
    ensures Words(a[WordLen(a)..] + [c] + b) == Words(a[WordLen(a)..]) + Words(b)
  {
    var n := WordLen(a);
    if n == |a| {
      var t := a[n..];
      assert t == [];
      SliceAround(t, c, b, 0);
      WordsSkipSpace(t + [c] + b);
    }
  }

  /** `[w] + (x + y) == ([w] + x) + y` */
  lemma ConsAssoc<T>(w: T, x: seq<T>, y: seq<T>)
    ensures [w] + (x + y) == ([w] + x) + y
  {
  }

  /** `WordLen` does not look past the whitespace character `c`. */
  lemma WordLenAround(a: string, c: char, b: string)
    requires IsSpace(c)
    ensures WordLen(a + [c] + b) == WordLen(a)
  {
    WordLenAppend(a, [c] + b);
    assert a + [c] + b == a + ([c] + b);
  }

  /** Slicing `a + [c] + b` inside `a`. */
  lemma SliceAround<T>(a: seq<T>, c: T, b: seq<T>, n: nat)
    requires n <= |a|
    ensures (a + [c] + b)[..n] == a[..n]
    ensures (a + [c] + b)[n..] == a[n..] + [c] + b
    ensures n < |a| ==> (a + [c] + b)[n] == a[n]
    ensures n == |a| ==> (a + [c] + b)[n] == c && (a + [c] + b)[n + 1..] == b
  {
  }

  /** Leading whitespace contributes no word. */
  lemma WordsSkipSpace(s: string)
    requires |s| > 0 && IsSpace(s[0])
    ensures Words(s) == Words(s[1..])
  {
  }

  /** A leading word is the first element of the word list. */
  lemma WordsTakeWord(s: string)
    requires |s| > 0 && !IsSpace(s[0])
    ensures Words(s) == [s[..WordLen(s)]] + Words(s[WordLen(s)..])
  {
  }

  lemma WordsOfWord(w: string)
    requires IsWord(w)
    ensures Words(w) == [w]
  {
    assert !IsSpace(w[0]);
    var n := WordLen(w);
    assert n == |w|;
    assert w[..n] == w;
    assert w[n..] == [];
    assert Words(w) == [w[..n]] + Words(w[n..]);
  }

  /** Every element of `s.split()` is a word. */
  lemma {:induction false} WordsAreWords(s: string)
    ensures forall i :: 0 <= i < |Words(s)| ==> IsWord(Words(s)[i])
    decreases |s|
  {
    if |s| == 0 {
    } else if IsSpace(s[0]) {
      WordsAreWords(s[1..]);
    } else {
      var n := WordLen(s);
      assert n > 0 by { assert WordLen(s) == 1 + WordLen(s[1..]); }
      WordsAreWords(s[n..]);
      assert Words(s) == [s[..n]] + Words(s[n..]);
    }
  }

  /** `" ".join(ws).split() == ws` when every element is a word. */
  lemma {:induction false} WordsOfJoin(ws: seq<string>)
    requires forall i :: 0 <= i < |ws| ==> IsWord(ws[i])
    ensures Words(Join(ws, " ")) == ws
  {
    if |ws| == 0 {
    } else if |ws| == 1 {
      WordsOfWord(ws[0]);
    } else {
      WordsOfJoin(ws[1..]);
      WordsAtSpace(ws[0], ' ', Join(ws[1..], " "));
      WordsOfWord(ws[0]);
      assert ws[0] + " " + Join(ws[1..], " ") == ws[0] + [' '] + Join(ws[1..], " ");
      assert ws == [ws[0]] + ws[1..];
    }
  }

  lemma {:induction false} WordsStripLeft(s: string)
    ensures Words(StripLeft(s)) == Words(s)
    decreases |s|
  {
    if |s| > 0 && IsSpace(s[0]) {
      WordsStripLeft(s[1..]);
    }
  }

  lemma {:induction false} WordsStripRight(s: string)
    ensures Words(StripRight(s)) == Words(s)
    decreases |s|
  {
    if |s| > 0 && IsSpace(s[|s| - 1]) {
      var t := s[..|s| - 1];
      WordsStripRight(t);
      WordsAtSpace(t, s[|s| - 1], "");
      assert t + [s[|s| - 1]] + "" == s;
    }
  }

  /** `s.strip().split() == s.split()` */
  lemma WordsStrip(s: string)
    ensures Words(Strip(s)) == Words(s)
  {
    WordsStripLeft(s);
    WordsStripRight(StripLeft(s));
  }

  /** A string that is not blank has at least one word. */
  lemma StripNonEmptyHasWords(s: string)
    requires Strip(s) != ""
    ensures |Words(s)| > 0
  {
    WordsStrip(s);
    var t := Strip(s);
    assert !IsSpace(t[0]);
    var n := WordLen(t);
    assert n > 0 by { assert WordLen(t) == 1 + WordLen(t[1..]); }
  }

  /** `s.strip().strip() == s.strip()` */
  lemma StripIdempotent(s: string)
    ensures Strip(Strip(s)) == Strip(s)
  {
    var l := StripLeft(s);
    var t := StripRight(l);
    assert t == Strip(s);
    if t != [] {
      assert t == l[..|t|];
      assert t[0] == l[0];
      NoSpaceEnds(t);
    } else {
      assert Strip(t) == t;
    }
  }

  /** A string with no space at either end is its own strip. */
  lemma NoSpaceEnds(t: string)
    requires t != [] && !IsSpace(t[0]) && !IsSpace(t[|t| - 1])
    ensures Strip(t) == t
  {
    assert StripLeft(t) == t;
  }

  /** A blank string has no words. */
  lemma BlankHasNoWords(s: string)
    requires Strip(s) == ""
    ensures Words(s) == []
  {
    WordsStrip(s);
  }

  // ---------------------------------------------------------------
  // Facts about `in`, strip and replace
  // ---------------------------------------------------------------

  lemma {:induction false} ContainsSuffix(s: string, k: nat, p: string)
    requires k <= |s| && Contains(s[k..], p)
    ensures Contains(s, p)
    decreases k
  {
    if k > 0 {
      assert s[1..][k - 1..] == s[k..];
      ContainsSuffix(s[1..], k - 1, p);
    }
  }

  lemma {:induction false} ContainsPrefix(s: string, k: nat, p: string)
    requires k <= |s| && Contains(s[..k], p)
    ensures Contains(s, p)
    decreases |s|
  {
    if StartsWith(s[..k], p) {
      assert s[..k][..|p|] == s[..|p|];
    } else {
      assert k > 0;
      assert s[..k][1..] == s[1..][..k - 1];
      ContainsPrefix(s[1..], k - 1, p);
    }
  }

  /** `s.strip()` is a substring of `s`. */
  lemma StripContains(s: string, p: string)
    requires Contains(Strip(s), p)
    ensures Contains(s, p)
  {
    var l := StripLeft(s);
    ContainsPrefix(l, |Strip(s)|, p);
    ContainsSuffix(s, |s| - |l|, p);
  }

  /** After removing every "```", a leading non-backtick character stays first. */
  lemma FenceFreeHead(s: string)
    requires |s| > 0 && s[0] != '`'
    ensures |ReplaceAll(s, "```", "")| > 0 && ReplaceAll(s, "```", "")[0] == s[0]
  {
    assert !StartsWith(s, "```");
  }

  /** `s.replace("```", "")` contains no "```" (runs of backticks leave fewer than three). */
  lemma {:induction false} FenceFree(s: string)
    ensures !Contains(ReplaceAll(s, "```", ""), "```")
    decreases |s|
  {
    var f := "```";
    if |s| == 0 {
    } else if StartsWith(s, f) {
      FenceFree(s[|f|..]);
      assert ReplaceAll(s, f, "") == "" + ReplaceAll(s[|f|..], f, "");
      assert "" + ReplaceAll(s[|f|..], f, "") == ReplaceAll(s[|f|..], f, "");
    } else {
      var t := s[1..];
      var rt := ReplaceAll(t, f, "");
      FenceFree(t);
      assert ReplaceAll(s, f, "") == [s[0]] + rt;
      assert ([s[0]] + rt)[1..] == rt;
      if s[0] == '`' {
        // rt does not start with "``": t has no leading "``", or it is exactly one backtick
        if |t| == 0 {
        } else if t[0] != '`' {
          FenceFreeHead(t);
        } else if |t| == 1 {
          assert rt == ['`'] + ReplaceAll(t[1..], f, "");
        } else {
          assert t[1] != '`' by { assert s[..3] == [s[0], t[0], t[1]]; }
          assert !StartsWith(t, f);
          assert rt == [t[0]] + ReplaceAll(t[1..], f, "");
          FenceFreeHead(t[1..]);
        }
      }
    }
  }

  /** A string that starts with `p` contains `p`. */
  lemma StartsWithContains(s: string, p: string)
    requires StartsWith(s, p)
    ensures Contains(s, p)
  {
  }

  // ---------------------------------------------------------------
  // Facts about split(c) and find
  // ---------------------------------------------------------------

  /** `(a + c + b).split(c) == [a] + b.split(c)` when `a` holds no `c`. */
  lemma {:induction false} SplitOnFirst(a: string, c: char, b: string)
    requires c !in a
    ensures SplitOn(a + [c] + b, c) == [a] + SplitOn(b, c)
    decreases |a|
  {
    var s := a + [c] + b;
    if |a| == 0 {
      assert s == [c] + b;
      assert s[1..] == b;
    } else {
      assert s[1..] == a[1..] + [c] + b;
      SplitOnFirst(a[1..], c, b);
      assert [a[0]] + a[1..] == a;
    }
  }

  /** `s.split(c)` has at least two parts exactly when `c` occurs in `s`. */
  lemma {:induction false} SplitOnParts(s: string, c: char)
    ensures |SplitOn(s, c)| >= 2 <==> c in s
    ensures c !in s ==> SplitOn(s, c) == [s]
    decreases |s|
  {
    if |s| > 0 {
      SplitOnParts(s[1..], c);
      assert s == [s[0]] + s[1..];
    }
  }

  /** `(a + c + b).split(c) == a.split(c) + [b]` when `b` holds no `c`. */
  lemma {:induction false} SplitOnLast(a: string, c: char, b: string)
    requires c !in b
    ensures SplitOn(a + [c] + b, c) == SplitOn(a, c) + [b]
    decreases |a|
  {
    var s := a + [c] + b;
    if |a| == 0 {
      assert s == [c] + b;
      assert s[1..] == b;
      SplitOnParts(b, c);
    } else {
      assert s[1..] == a[1..] + [c] + b;
      SplitOnLast(a[1..], c, b);
    }
  }

  /** A scan from `i` that passes an occurrence at `o >= i` stops at or before it. */
  lemma {:induction false} FindFromReaches(s: string, sub: string, i: nat, o: nat)
    requires i <= o && OccursAt(s, sub, o)
    ensures i <= FindFrom(s, sub, i) <= o
    decreases o - i
  {
    if s[i..i + |sub|] != sub {
      FindFromReaches(s, sub, i + 1, o);
    }
  }

  // ---------------------------------------------------------------
  // Code-point (lexicographic) order, as Python compares str values
  // ---------------------------------------------------------------

  predicate Less(a: string, b: string)
    decreases |a|
  {
    if |a| == 0 then |b| > 0
    else if |b| == 0 then false
    else if a[0] == b[0] then Less(a[1..], b[1..])
    else a[0] < b[0]
  }

  lemma {:induction false} LessIrreflexive(a: string)
    ensures !Less(a, a)
    decreases |a|
  {
    if |a| > 0 { LessIrreflexive(a[1..]); }
  }

  lemma {:induction false} LessTransitive(a: string, b: string, c: string)
    requires Less(a, b) && Less(b, c)
    ensures Less(a, c)
    decreases |a|
  {
    if |a| > 0 && |b| > 0 && |c| > 0 && a[0] == b[0] && b[0] == c[0] {
      LessTransitive(a[1..], b[1..], c[1..]);
    }
  }

  lemma {:induction false} LessTotal(a: string, b: string)
    requires a != b
    ensures Less(a, b) || Less(b, a)
    decreases |a|
  {
    if |a| > 0 && |b| > 0 && a[0] == b[0] {
      assert a == [a[0]] + a[1..] && b == [b[0]] + b[1..];
      LessTotal(a[1..], b[1..]);
    }
  }

  /** Strictly increasing in code-point order, hence free of duplicates. */
  predicate StrictlySorted(s: seq<string>) {
    forall i, j :: 0 <= i < j < |s| ==> Less(s[i], s[j])
  }

  /** Insert `x` into a strictly sorted list that lacks it. */
  function Insert(s: seq<string>, x: string): (r: seq<string>)
    requires StrictlySorted(s) && x !in s
    ensures StrictlySorted(r)
    ensures forall y :: y in r <==> y in s || y == x
    ensures |r| == |s| + 1
  {
    if |s| == 0 then [x]
    else if Less(x, s[0]) then
      assert forall j :: 0 < j < |s| ==> Less(x, s[j]) by {
        forall j | 0 < j < |s| { LessTransitive(x, s[0], s[j]); }
      }
      [x] + s
    else
      LessTotal(x, s[0]);
      var rest := Insert(s[1..], x);
      assert forall y :: y in rest ==> Less(s[0], y);
      [s[0]] + rest
  }

  /** `sorted(list(xs))` for a set of strings. */
  method SortedList(xs: set<string>) returns (r: seq<string>)
    ensures StrictlySorted(r)
    ensures forall y :: y in r <==> y in xs
    ensures |r| == |xs|
  {
    r := [];
    var rest := xs;
    while rest != {}
      invariant StrictlySorted(r)
      invariant rest <= xs
      invariant forall y :: y in r <==> y in xs && y !in rest
      invariant |r| + |rest| == |xs|
      decreases |rest|
    {
      var x :| x in rest;
      r := Insert(r, x);
      rest := rest - {x};
    }
  }

  // ---------------------------------------------------------------
  // Sequence helpers
  // ---------------------------------------------------------------

  lemma PrefixStep<T>(s: seq<T>, i: nat)
    requires i < |s|
    ensures forall x :: x in s[..i + 1] <==> x in s[..i] || x == s[i]
  {
    assert s[..i + 1] == s[..i] + [s[i]];
  }

  /** `a` is `b` with some elements left out, the rest in their order. */
  predicate IsSubsequence<T(==)>(a: seq<T>, b: seq<T>)
    decreases |b|
  {
    if |a| == 0 then true
    else if |b| == 0 then false
    else if a[|a| - 1] == b[|b| - 1] then IsSubsequence(a[..|a| - 1], b[..|b| - 1])
    else IsSubsequence(a, b[..|b| - 1])
  }

  /** The first two parts of `a + b + c + d` can be sliced back out. */
  lemma ConcatSlices<T>(a: seq<T>, b: seq<T>, c: seq<T>, d: seq<T>)
    ensures (a + b + c + d)[..|a|] == a
    ensures (a + b + c + d)[|a|..|a| + |b|] == b
  {
    assert a + b + c + d == a + (b + (c + d));
  }

  lemma SplitLast<T>(s: seq<T>)
    requires |s| > 0
    ensures s[..|s| - 1] + [s[|s| - 1]] == s
  {
  }

  /** One step of removing every `c`, over the last element `x`. */
  lemma RemoveLastStep<T>(init: seq<T>, x: T, c: T, rest: seq<T>)
    requires c !in rest
    requires forall y :: y != c ==> (y in rest <==> y in init)
    requires multiset(rest) == multiset(init)[c := 0]
    requires IsSubsequence(rest, init)
    ensures var r := if x == c then rest else rest + [x];
      c !in r && (forall y :: y != c ==> (y in r <==> y in init + [x]))
      && multiset(r) == multiset(init + [x])[c := 0] && IsSubsequence(r, init + [x])
  {
    if x == c {
      SubsequenceExtend(rest, init, x);
    } else {
      SubsequenceAppendBoth(rest, init, x);
    }
  }

  lemma SubsequenceAppendBoth<T>(a: seq<T>, b: seq<T>, x: T)
    requires IsSubsequence(a, b)
    ensures IsSubsequence(a + [x], b + [x])
  {
    assert (a + [x])[..|a|] == a && (b + [x])[..|b|] == b;
  }

  lemma {:induction false} SubsequenceExtend<T>(a: seq<T>, b: seq<T>, x: T)
    requires IsSubsequence(a, b)
    ensures IsSubsequence(a, b + [x])
    decreases |b|, 1
  {
    var b' := b + [x];
    assert b'[..|b|] == b;
    if |a| > 0 && a[|a| - 1] == x {
      SubsequenceDropLast(a, b);
    }
  }

  lemma {:induction false} SubsequenceDropLast<T>(a: seq<T>, b: seq<T>)
    requires |a| > 0 && IsSubsequence(a, b)
    ensures IsSubsequence(a[..|a| - 1], b)
    decreases |b|, 0
  {
    var a', b' := a[..|a| - 1], b[..|b| - 1];
    assert b' + [b[|b| - 1]] == b;
    if a[|a| - 1] == b[|b| - 1] {
      SubsequenceExtend(a', b', b[|b| - 1]);
    } else {
      SubsequenceDropLast(a, b');
      SubsequenceExtend(a', b', b[|b| - 1]);
    }
  }
}
