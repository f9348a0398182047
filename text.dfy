/**
  The Python string built-ins the analysis scripts rely on, as functions on `seq<char>`:
  `str.split()` (whitespace), `str.split(sep)`, `sep.join(...)`, `str.strip()`, `str.replace`, `str.rindex`,
  `str.lower()`, `int(...)`, `str(int)`, `repr(list)` and `re.sub(r'\s+', ' ', ...)`.
*/
module Text {
  import opened Results

  /** The placeholder Kaldi writes where one side of the alignment has no word. */
  const DelSymbol: string := "***"

  /** The characters Python's `str.isspace()` accepts, which `split()` and `strip()` remove. */
  predicate IsSpace(c: char) {
    var n := c as int;
    (9 <= n <= 13) || (28 <= n <= 32) || n == 0x85 || n == 0xA0 || n == 0x1680
    || (0x2000 <= n <= 0x200A) || n == 0x2028 || n == 0x2029 || n == 0x202F
    || n == 0x205F || n == 0x3000
  }

  /** A field of `str.split()`: non-empty and free of whitespace. */
  predicate IsToken(w: string) {
    |w| > 0 && forall i :: 0 <= i < |w| ==> !IsSpace(w[i])
  }

  predicate AllTokens(ws: seq<string>) {
    forall i :: 0 <= i < |ws| ==> IsToken(ws[i])
  }

  /** Length of the leading run of non-whitespace characters. */
  function TokenLen(s: string): (n: nat)
    ensures n <= |s|
    ensures forall i :: 0 <= i < n ==> !IsSpace(s[i])
    ensures n < |s| ==> IsSpace(s[n])
  {
    if s == [] || IsSpace(s[0]) then 0 else 1 + TokenLen(s[1..])
  }

  /** `s.split()`: the maximal runs of non-whitespace characters, in order. */
  function Split(s: string): (r: seq<string>)
    ensures AllTokens(r)
    decreases |s|
  {
    if s == [] then []
    else if IsSpace(s[0]) then Split(s[1..])
    else
      var n := TokenLen(s);
      [s[..n]] + Split(s[n..])
  }

  /** `sep.join(parts)`. */
  function Join(sep: string, parts: seq<string>): string {
    if |parts| == 0 then ""
    else if |parts| == 1 then parts[0]
    else parts[0] + sep + Join(sep, parts[1..])
  }

  lemma {:induction false} SplitLeadingSpace(c: char, s: string)
    requires IsSpace(c)
    ensures Split([c] + s) == Split(s)
  {
    assert ([c] + s)[1..] == s;
  }

  lemma {:induction false} SplitToken(w: string, s: string)
    requires IsToken(w)
    requires s == [] || IsSpace(s[0])
    ensures Split(w + s) == [w] + Split(s)
  {
    TokenLenOfToken(w, s);
    assert (w + s)[..|w|] == w;
    assert (w + s)[|w|..] == s;
  }

  lemma {:induction false} TokenLenOfToken(w: string, s: string)
    requires forall i :: 0 <= i < |w| ==> !IsSpace(w[i])
    requires s == [] || IsSpace(s[0])
    ensures TokenLen(w + s) == |w|
    decreases |w|
  {
    if w != [] {
      assert (w + s)[1..] == w[1..] + s;
      TokenLenOfToken(w[1..], s);
    }
  }

  /** Splitting a single-space join of tokens gives the tokens back: `' '.join(ws).split() == ws`. */
  lemma {:induction false} SplitJoin(ws: seq<string>)
    requires AllTokens(ws)
    ensures Split(Join(" ", ws)) == ws
  {
    if |ws| == 0 {
    } else if |ws| == 1 {
      SplitToken(ws[0], "");
      assert ws[0] + "" == ws[0];
    } else {
      var rest := Join(" ", ws[1..]);
      assert Join(" ", ws) == ws[0] + (" " + rest);
      SplitToken(ws[0], " " + rest);
      SplitLeadingSpace(' ', rest);
      SplitJoin(ws[1..]);
      assert ws == [ws[0]] + ws[1..];
    }
  }

  /** Re-splitting a line rebuilt from its own fields gives the same fields. */
  lemma SplitJoinSplit(s: string)
    ensures Split(Join(" ", Split(s))) == Split(s)
  {
    SplitJoin(Split(s));
  }

  /** Index of the first occurrence of `c` in `s` at or after `from`, or `|s|` if there is none. */
  function IndexFrom(s: string, c: char, from: nat): (k: nat)
    requires from <= |s|
    ensures from <= k <= |s|
    ensures k < |s| ==> s[k] == c
    ensures forall i :: from <= i < k ==> s[i] != c
    decreases |s| - from
  {
    if from == |s| || s[from] == c then from else IndexFrom(s, c, from + 1)
  }

  /** `s.split(sep)` with a one-character separator: every field, empty ones included. */
  function SplitOn(s: string, sep: char): (r: seq<string>)
    ensures |r| >= 1
    ensures forall i, j :: 0 <= i < |r| && 0 <= j < |r[i]| ==> r[i][j] != sep
    decreases |s|
  {
    var k := IndexFrom(s, sep, 0);
    if k == |s| then [s] else [s[..k]] + SplitOn(s[k + 1..], sep)
  }

  /** The number of occurrences of `c` in `s`. */
  function CountChar(s: string, c: char): nat {
    if s == [] then 0 else (if s[0] == c then 1 else 0) + CountChar(s[1..], c)
  }

  /** `s.split(sep)` has one more field than `s` has separators. */
  lemma {:induction false} SplitOnLength(s: string, sep: char)
    ensures |SplitOn(s, sep)| == CountChar(s, sep) + 1
    decreases |s|
  {
    var k := IndexFrom(s, sep, 0);
    CountCharNone(s[..k], sep);
    assert s == s[..k] + s[k..];
    CountCharAppend(s[..k], s[k..], sep);
    if k < |s| {
      assert s[k..] == [sep] + s[k + 1..];
      CountCharAppend([sep], s[k + 1..], sep);
      SplitOnLength(s[k + 1..], sep);
    }
  }

  lemma {:induction false} CountCharNone(s: string, c: char)
    requires forall i :: 0 <= i < |s| ==> s[i] != c
    ensures CountChar(s, c) == 0
  {
    if s != [] { CountCharNone(s[1..], c); }
  }

  lemma {:induction false} CountCharAppend(a: string, b: string, c: char)
    ensures CountChar(a + b, c) == CountChar(a, c) + CountChar(b, c)
  {
    if a != [] {
      assert a + b == [a[0]] + (a[1..] + b);
      CountCharAppend(a[1..], b, c);
    } else {
      assert a + b == b;
    }
  }

  /** `s` without its leading whitespace (`str.lstrip()`). */
  function LStrip(s: string): (r: string)
    ensures |r| <= |s| && r == s[|s| - |r|..]
    ensures s != [] && IsSpace(s[0]) ==> |r| < |s|
    ensures r == [] || !IsSpace(r[0])
  {
    if s != [] && IsSpace(s[0]) then LStrip(s[1..]) else s
  }

  /** `s` without its trailing whitespace (`str.rstrip()`). */
  function RStrip(s: string): (r: string)
    ensures |r| <= |s| && r == s[..|r|]
    ensures r == [] || !IsSpace(r[|r| - 1])
  {
    if s != [] && IsSpace(s[|s| - 1]) then RStrip(s[..|s| - 1]) else s
  }

  /** `s.strip()`: the leading whitespace dropped one character at a time, then the trailing. */
  function Strip(s: string): (r: string)
    ensures r == [] || (!IsSpace(r[0]) && !IsSpace(r[|r| - 1]))
    decreases |s|
  {
    if s != [] && IsSpace(s[0]) then Strip(s[1..])
    else
      var r := RStrip(s);
      assert r != [] ==> r[0] == s[0];
      r
  }

  /** `strip()` is `lstrip()` followed by `rstrip()`. */
  lemma {:induction false} StripIsBoth(s: string)
    ensures Strip(s) == RStrip(LStrip(s))
    decreases |s|
  {
    if s != [] && IsSpace(s[0]) {
      StripIsBoth(s[1..]);
    }
  }

  /** Does `p` start `s`? */
  predicate IsPrefix(p: string, s: string) {
    |p| <= |s| && s[..|p|] == p
  }

  /** Does `sub` occur in `s` (`sub in s`)? */
  predicate Contains(s: string, sub: string)
    decreases |s|
  {
    IsPrefix(sub, s) || (s != [] && Contains(s[1..], sub))
  }

  /** `s.replace(pat, rep)`: every non-overlapping occurrence of `pat`, scanning left to right. */
  function Replace(s: string, pat: string, rep: string): string
    decreases |s|
  {
    if pat == [] then ReplaceEmpty(s, rep)
    else if IsPrefix(pat, s) then rep + Replace(s[|pat|..], pat, rep)
    else if s == [] then []
    else [s[0]] + Replace(s[1..], pat, rep)
  }

  /** `s.replace('', rep)` inserts `rep` before every character and at the end. */
  function ReplaceEmpty(s: string, rep: string): string {
    if s == [] then rep else rep + [s[0]] + ReplaceEmpty(s[1..], rep)
  }

  /** A string without an occurrence of a non-empty pattern is left as it is by `replace`. */
  lemma {:induction false} ReplaceAbsent(s: string, pat: string, rep: string)
    requires pat != [] && !Contains(s, pat)
    ensures Replace(s, pat, rep) == s
    decreases |s|
  {
    if s != [] {
      ReplaceAbsent(s[1..], pat, rep);
      assert s == [s[0]] + s[1..];
    }
  }

  /** A string has no occurrence of a longer pattern. */
  lemma {:induction false} ContainsShorter(s: string, sub: string)
    requires Contains(s, sub)
    ensures |sub| <= |s|
    decreases |s|
  {
    if !IsPrefix(sub, s) {
      ContainsShorter(s[1..], sub);
    }
  }

  /**
    `replace` rewrites the first occurrence of the pattern and resumes scanning right after it:
    where `a` followed by the pattern's first characters holds no occurrence, `a + pat + b` becomes
    `a`, then `rep`, then the replaced `b`.
  */
  lemma {:induction false} ReplaceFirst(a: string, pat: string, b: string, rep: string)
    requires pat != [] && !Contains(a + pat[..|pat| - 1], pat)
    ensures Replace(a + pat + b, pat, rep) == a + rep + Replace(b, pat, rep)
    decreases |a|
  {
    if a == [] {
      assert a + pat + b == pat + b;
      ReplaceAtStart(pat, b, rep);
    } else {
      ReplaceBeforeFirst(a, pat, b, rep);
      ReplaceFirst(a[1..], pat, b, rep);
      ReplaceFirstStep(a, pat, b, rep);
    }
  }

  /** The step of `ReplaceFirst`: the first character of `a` is kept in front of the rest's result. */
  lemma ReplaceFirstStep(a: string, pat: string, b: string, rep: string)
    requires a != []
    requires Replace(a + pat + b, pat, rep) == [a[0]] + Replace(a[1..] + pat + b, pat, rep)
    requires Replace(a[1..] + pat + b, pat, rep) == a[1..] + rep + Replace(b, pat, rep)
    ensures Replace(a + pat + b, pat, rep) == a + rep + Replace(b, pat, rep)
  {
    HeadConcat(a, rep, Replace(b, pat, rep));
  }

  lemma HeadConcat(a: string, y: string, z: string)
    requires a != []
    ensures [a[0]] + (a[1..] + y + z) == a + y + z
  {
    assert a == [a[0]] + a[1..];
  }

  /** A string that starts with the pattern has it rewritten there. */
  lemma ReplaceAtStart(pat: string, b: string, rep: string)
    requires pat != []
    ensures Replace(pat + b, pat, rep) == rep + Replace(b, pat, rep)
  {
    var s := pat + b;
    assert s[..|pat|] == pat && s[|pat|..] == b;
  }

  /** Before the first occurrence of the pattern, `replace` keeps one character and goes on. */
  lemma ReplaceBeforeFirst(a: string, pat: string, b: string, rep: string)
    requires a != [] && pat != [] && !Contains(a + pat[..|pat| - 1], pat)
    ensures Replace(a + pat + b, pat, rep) == [a[0]] + Replace(a[1..] + pat + b, pat, rep)
    ensures !Contains(a[1..] + pat[..|pat| - 1], pat)
  {
    var s := a + pat + b;
    var x := a + pat[..|pat| - 1];
    assert x[..|pat|] == s[..|pat|];
    assert x[1..] == a[1..] + pat[..|pat| - 1];
    assert s[1..] == a[1..] + pat + b;
    ReplaceKeepsHead(s, pat, rep);
  }

  /** Where the pattern does not start a string, `replace` keeps its first character. */
  lemma ReplaceKeepsHead(s: string, pat: string, rep: string)
    requires pat != [] && s != [] && !IsPrefix(pat, s)
    ensures Replace(s, pat, rep) == [s[0]] + Replace(s[1..], pat, rep)
  {
  }

  /** A deletion result that starts with `*` comes from a string that starts with `*`. */
  lemma DeletedStartsWithStar(u: string)
    requires Replace(u, DelSymbol, "") != [] && Replace(u, DelSymbol, "")[0] == '*'
    ensures u != [] && u[0] == '*'
  {
    if IsPrefix(DelSymbol, u) {
      assert u[0] == u[..3][0];
    }
  }

  /** A deletion result that starts with `**` comes from a string that starts with `**`. */
  lemma DeletedStartsWithTwoStars(t: string)
    requires |Replace(t, DelSymbol, "")| >= 2 && Replace(t, DelSymbol, "")[..2] == "**"
    ensures |t| >= 2 && t[..2] == "**"
  {
    if IsPrefix(DelSymbol, t) {
      assert t[..2] == t[..3][..2];
    } else {
      var r := Replace(t[1..], DelSymbol, "");
      assert Replace(t, DelSymbol, "") == [t[0]] + r;
      assert r[0] == Replace(t, DelSymbol, "")[1];
      DeletedStartsWithStar(t[1..]);
    }
  }

  /** `s.replace('***', '')` leaves no `***` behind, even where deleting one brings stars together. */
  lemma {:induction false} DeletedHasNoDelSymbol(s: string)
    ensures !Contains(Replace(s, DelSymbol, ""), DelSymbol)
    decreases |s|
  {
    if IsPrefix(DelSymbol, s) {
      DeletedHasNoDelSymbol(s[3..]);
      assert Replace(s, DelSymbol, "") == Replace(s[3..], DelSymbol, "");
    } else if s != [] {
      var r := Replace(s[1..], DelSymbol, "");
      DeletedHasNoDelSymbol(s[1..]);
      assert Replace(s, DelSymbol, "") == [s[0]] + r;
      assert ([s[0]] + r)[1..] == r;
      if IsPrefix(DelSymbol, [s[0]] + r) {
        assert r[..2] == ([s[0]] + r)[1..3];
        DeletedStartsWithTwoStars(s[1..]);
        assert false;
      }
    }
  }

  /** An occurrence in a prefix is an occurrence in the whole string. */
  lemma {:induction false} ContainsInPrefix(s: string, k: nat, sub: string)
    requires k <= |s| && Contains(s[..k], sub)
    ensures Contains(s, sub)
    decreases k
  {
    if IsPrefix(sub, s[..k]) {
      assert s[..|sub|] == s[..k][..|sub|];
    } else {
      assert s[..k][1..] == s[1..][..k - 1];
      ContainsInPrefix(s[1..], k - 1, sub);
    }
  }

  /** An occurrence in a suffix is an occurrence in the whole string. */
  lemma {:induction false} ContainsInSuffix(s: string, k: nat, sub: string)
    requires k <= |s| && Contains(s[k..], sub)
    ensures Contains(s, sub)
    decreases k
  {
    if k > 0 {
      assert s[k..] == s[1..][k - 1..];
      ContainsInSuffix(s[1..], k - 1, sub);
    }
  }

  /** `strip()` only removes characters, so it brings no new occurrence about. */
  lemma {:induction false} StripContains(s: string, sub: string)
    requires Contains(Strip(s), sub)
    ensures Contains(s, sub)
    decreases |s|
  {
    if s != [] && IsSpace(s[0]) {
      StripContains(s[1..], sub);
      ContainsInSuffix(s, 1, sub);
    } else {
      var r := RStrip(s);
      assert Strip(s) == r && r == s[..|r|];
      ContainsInPrefix(s, |r|, sub);
    }
  }

  /** `s.rindex(c)`: the last position of `c` in `s`; `None` where Python raises `ValueError`. */
  function RIndex(s: string, c: char): (r: Option<nat>)
    ensures r.Some? ==> r.value < |s| && s[r.value] == c && forall j :: r.value < j < |s| ==> s[j] != c
    ensures r.None? ==> forall j :: 0 <= j < |s| ==> s[j] != c
    decreases |s|
  {
    if s == [] then None
    else if s[|s| - 1] == c then Some(|s| - 1)
    else RIndex(s[..|s| - 1], c)
  }

  /** Python's `str.lower()` on one character: ASCII and Latin-1 capitals map to their small letters. */
  function LowerChar(c: char): (d: char)
    ensures 'a' <= d <= 'z' ==> 'a' <= c <= 'z' || 'A' <= c <= 'Z'
  {
    if 'A' <= c <= 'Z' then (c as int + 32) as char
    else if 0xC0 <= c as int <= 0xDE && c as int != 0xD7 then (c as int + 32) as char
    else c
  }

  /** `s.lower()`. */
  function Lower(s: string): (r: string)
    ensures |r| == |s|
    ensures forall i :: 0 <= i < |s| ==> r[i] == LowerChar(s[i])
  {
    seq(|s|, i requires 0 <= i < |s| => LowerChar(s[i]))
  }

  /** `re.sub(r'\s+', ' ', s)`: every maximal whitespace run becomes one space. */
  function CollapseSpaces(s: string): (r: string)
    decreases |s|
  {
    if s == [] then []
    else if IsSpace(s[0]) then " " + CollapseSpaces(LStrip(s))
    else [s[0]] + CollapseSpaces(s[1..])
  }

  /** `lower()` changes only letters, into letters: any other result character was already there. */
  lemma LowerCharOther(c: char)
    ensures !('a' <= LowerChar(c) <= 'z') && !(0xE0 <= LowerChar(c) as int <= 0xFE) ==> LowerChar(c) == c
    ensures IsSpace(LowerChar(c)) <==> IsSpace(c)
  {
  }

  /** `s.lower() == "."` only for `"."`. */
  lemma LowerDot(w: string)
    requires Lower(w) == "."
    ensures w == "."
  {
    LowerCharOther(w[0]);
    assert w == [w[0]];
  }

  /** Only single spaces, each followed by a non-space or the end. */
  predicate SingleSpaced(s: string) {
    forall i :: 0 <= i < |s| && IsSpace(s[i]) ==> s[i] == ' ' && (i + 1 == |s| || !IsSpace(s[i + 1]))
  }

  /** A single-spaced string holds no double space. */
  lemma {:induction false} SingleSpacedNoDouble(s: string)
    requires SingleSpaced(s)
    ensures !Contains(s, "  ")
    decreases |s|
  {
    if s != [] {
      if |s| >= 2 {
        assert s[..2] == [s[0], s[1]];
        assert !(s[0] == ' ' && s[1] == ' ');
      }
      SingleSpacedSlice(s, 1, |s|);
      assert s[1..|s|] == s[1..];
      SingleSpacedNoDouble(s[1..]);
    }
  }

  /** A slice of a single-spaced string is single-spaced. */
  lemma SingleSpacedSlice(s: string, a: nat, b: nat)
    requires SingleSpaced(s) && a <= b <= |s|
    ensures SingleSpaced(s[a..b])
  {
    var t := s[a..b];
    forall i | 0 <= i < |t| && IsSpace(t[i])
      ensures t[i] == ' ' && (i + 1 == |t| || !IsSpace(t[i + 1]))
    {
      assert t[i] == s[a + i];
      if i + 1 < |t| {
        assert t[i + 1] == s[a + i + 1];
      }
    }
  }

  /** `strip()` keeps a string single-spaced. */
  lemma {:induction false} StripSingleSpaced(s: string)
    requires SingleSpaced(s)
    ensures SingleSpaced(Strip(s))
    decreases |s|
  {
    if s != [] && IsSpace(s[0]) {
      SingleSpacedSlice(s, 1, |s|);
      assert s[1..|s|] == s[1..];
      StripSingleSpaced(s[1..]);
    } else {
      var r := RStrip(s);
      assert Strip(s) == r && r == s[0..|r|];
      SingleSpacedSlice(s, 0, |r|);
    }
  }

  /** `lower()` keeps a string single-spaced. */
  lemma LowerSingleSpaced(s: string)
    requires SingleSpaced(s)
    ensures SingleSpaced(Lower(s))
  {
    var l := Lower(s);
    forall i | 0 <= i < |l| && IsSpace(l[i])
      ensures l[i] == ' ' && (i + 1 == |l| || !IsSpace(l[i + 1]))
    {
      LowerCharOther(s[i]);
      if i + 1 < |l| {
        LowerCharOther(s[i + 1]);
      }
    }
  }

  /** The whitespace collapse starts with the first character of `s` when that is not whitespace. */
  lemma CollapseHead(s: string)
    requires s != [] && !IsSpace(s[0])
    ensures CollapseSpaces(s) != [] && CollapseSpaces(s)[0] == s[0]
  {
  }

  /** The whitespace collapse leaves only single spaces. */
  lemma {:induction false} CollapsedSingleSpaced(s: string)
    ensures SingleSpaced(CollapseSpaces(s))
    decreases |s|
  {
    if s != [] {
      var r := CollapseSpaces(s);
      if IsSpace(s[0]) {
        var t := LStrip(s);
        CollapsedSingleSpaced(t);
        var c := CollapseSpaces(t);
        assert r == " " + c;
        if t != [] {
          CollapseHead(t);
        } else {
          assert c == [];
        }
        forall i | 0 <= i < |r| && IsSpace(r[i])
          ensures r[i] == ' ' && (i + 1 == |r| || !IsSpace(r[i + 1]))
        {
          if i > 0 {
            assert r[i] == c[i - 1];
            if i + 1 < |r| {
              assert r[i + 1] == c[i];
            }
          }
        }
      } else {
        CollapsedSingleSpaced(s[1..]);
        var c := CollapseSpaces(s[1..]);
        assert r == [s[0]] + c;
        forall i | 0 <= i < |r| && IsSpace(r[i])
          ensures r[i] == ' ' && (i + 1 == |r| || !IsSpace(r[i + 1]))
        {
          assert i > 0;
          assert r[i] == c[i - 1];
          if i + 1 < |r| {
            assert r[i + 1] == c[i];
          }
        }
      }
    }
  }

  /** A collapse that starts with `*` comes from a string that starts with `*`. */
  lemma CollapseStar(u: string)
    requires CollapseSpaces(u) != [] && CollapseSpaces(u)[0] == '*'
    ensures u != [] && u[0] == '*'
  {
  }

  /** A collapse that starts with `**` comes from a string that starts with `**`. */
  lemma CollapseTwoStars(t: string)
    requires |CollapseSpaces(t)| >= 2 && CollapseSpaces(t)[..2] == "**"
    ensures |t| >= 2 && t[..2] == "**"
  {
    var r := CollapseSpaces(t);
    assert r[0] == '*' && r[1] == '*' by {
      assert r[0] == r[..2][0] && r[1] == r[..2][1];
    }
    CollapseStar(t);
    var c := CollapseSpaces(t[1..]);
    assert r == [t[0]] + c;
    assert c != [] && c[0] == r[1];
    CollapseStar(t[1..]);
    assert t[..2] == [t[0], t[1]];
  }

  /** The whitespace collapse brings no `***` about. */
  lemma {:induction false} CollapseNoDelSymbol(s: string)
    requires !Contains(s, DelSymbol)
    ensures !Contains(CollapseSpaces(s), DelSymbol)
    decreases |s|
  {
    if s != [] {
      if IsSpace(s[0]) {
        var t := LStrip(s);
        if Contains(t, DelSymbol) {
          ContainsInSuffix(s, |s| - |t|, DelSymbol);
        }
        CollapseNoDelSymbol(t);
        assert CollapseSpaces(s) == " " + CollapseSpaces(t);
        assert (" " + CollapseSpaces(t))[1..] == CollapseSpaces(t);
        assert !IsPrefix(DelSymbol, " " + CollapseSpaces(t)) by {
          if |" " + CollapseSpaces(t)| >= 3 {
            assert (" " + CollapseSpaces(t))[..3][0] == ' ';
          }
        }
      } else {
        var r := CollapseSpaces(s[1..]);
        CollapseNoDelSymbol(s[1..]);
        assert CollapseSpaces(s) == [s[0]] + r;
        assert ([s[0]] + r)[1..] == r;
        if IsPrefix(DelSymbol, [s[0]] + r) {
          assert r[..2] == ([s[0]] + r)[1..3];
          CollapseTwoStars(s[1..]);
        }
      }
    }
  }

  /** `lower()` brings no `***` about. */
  lemma {:induction false} LowerNoDelSymbol(s: string)
    requires !Contains(s, DelSymbol)
    ensures !Contains(Lower(s), DelSymbol)
    decreases |s|
  {
    if s != [] {
      LowerNoDelSymbol(s[1..]);
      assert Lower(s)[1..] == Lower(s[1..]);
      if IsPrefix(DelSymbol, Lower(s)) {
        LowerCharOther(s[0]);
        LowerCharOther(s[1]);
        LowerCharOther(s[2]);
      }
    }
  }

  /** The words of a string, each lowercased. */
  function LowerWords(ws: seq<string>): (r: seq<string>)
    ensures |r| == |ws|
  {
    seq(|ws|, i requires 0 <= i < |ws| => Lower(ws[i]))
  }

  /** A trailing whitespace character adds no word. */
  lemma {:induction false} SplitTrailingSpace(t: string, c: char)
    requires IsSpace(c)
    ensures Split(t + [c]) == Split(t)
    decreases |t|
  {
    if t == [] {
      assert Split([c]) == Split([c][1..]);
    } else if IsSpace(t[0]) {
      assert (t + [c])[1..] == t[1..] + [c];
      SplitTrailingSpace(t[1..], c);
    } else {
      var n := TokenLen(t);
      TokenLenOfToken(t[..n], t[n..] + [c]);
      assert t + [c] == t[..n] + (t[n..] + [c]);
      assert (t + [c])[..n] == t[..n] && (t + [c])[n..] == t[n..] + [c];
      SplitTrailingSpace(t[n..], c);
    }
  }

  /** `split()` ignores trailing whitespace: `RStrip` keeps the words. */
  lemma {:induction false} SplitRStrip(s: string)
    ensures Split(RStrip(s)) == Split(s)
    decreases |s|
  {
    if s != [] && IsSpace(s[|s| - 1]) {
      var t := s[..|s| - 1];
      assert s == t + [s[|s| - 1]];
      SplitTrailingSpace(t, s[|s| - 1]);
      SplitRStrip(t);
    }
  }

  /** `split()` ignores leading whitespace: `LStrip` keeps the words. */
  lemma {:induction false} SplitLStrip(s: string)
    ensures Split(LStrip(s)) == Split(s)
    decreases |s|
  {
    if s != [] && IsSpace(s[0]) {
      SplitLStrip(s[1..]);
    }
  }

  /** `split()` ignores surrounding whitespace: `Strip` keeps the words. */
  lemma {:induction false} SplitStrip(s: string)
    ensures Split(Strip(s)) == Split(s)
    decreases |s|
  {
    if s != [] && IsSpace(s[0]) {
      SplitStrip(s[1..]);
    } else {
      SplitRStrip(s);
    }
  }

  /** Lowercasing commutes with slicing. */
  lemma LowerSlice(s: string, a: nat, b: nat)
    requires a <= b <= |s|
    ensures Lower(s)[a..b] == Lower(s[a..b])
  {
  }

  /** Lowercasing keeps the leading run of non-whitespace characters. */
  lemma {:induction false} TokenLenLower(s: string)
    ensures TokenLen(Lower(s)) == TokenLen(s)
    decreases |s|
  {
    if s != [] {
      LowerCharOther(s[0]);
      if !IsSpace(s[0]) {
        LowerSlice(s, 1, |s|);
        assert Lower(s)[1..] == Lower(s[1..]) && s[1..|s|] == s[1..];
        TokenLenLower(s[1..]);
      }
    }
  }

  /** The words of a lowercased string are its words lowercased. */
  lemma {:induction false} SplitLower(s: string)
    ensures Split(Lower(s)) == LowerWords(Split(s))
    decreases |s|
  {
    if s != [] {
      if IsSpace(s[0]) {
        SplitLower(s[1..]);
        SplitLowerSpace(s);
      } else {
        SplitLower(s[TokenLen(s)..]);
        SplitLowerToken(s);
      }
    }
  }

  /** The step of `SplitLower` over a leading whitespace character. */
  lemma SplitLowerSpace(s: string)
    requires s != [] && IsSpace(s[0])
    requires Split(Lower(s[1..])) == LowerWords(Split(s[1..]))
    ensures Split(Lower(s)) == LowerWords(Split(s))
  {
    LowerCharOther(s[0]);
    var l := Lower(s);
    LowerSlice(s, 1, |s|);
    assert l[1..] == Lower(s[1..]) && s[1..|s|] == s[1..];
  }

  /** The step of `SplitLower` over a leading word. */
  lemma SplitLowerToken(s: string)
    requires s != [] && !IsSpace(s[0])
    requires Split(Lower(s[TokenLen(s)..])) == LowerWords(Split(s[TokenLen(s)..]))
    ensures Split(Lower(s)) == LowerWords(Split(s))
  {
    var l := Lower(s);
    var n := TokenLen(s);
    LowerCharOther(s[0]);
    TokenLenLower(s);
    assert l[0] == LowerChar(s[0]);
    assert Split(l) == [l[..n]] + Split(l[n..]);
    LowerSlice(s, 0, n);
    LowerSlice(s, n, |s|);
    assert s[0..n] == s[..n] && s[n..|s|] == s[n..] && l[0..n] == l[..n] && l[n..|l|] == l[n..];
    var rest := Split(s[n..]);
    assert Split(s) == [s[..n]] + rest;
    assert LowerWords([s[..n]] + rest) == [Lower(s[..n])] + LowerWords(rest);
  }

  /** A token in front is kept as it is by collapsing the whitespace after it. */
  lemma {:induction false} CollapseToken(w: string, rest: string)
    requires forall i :: 0 <= i < |w| ==> !IsSpace(w[i])
    ensures CollapseSpaces(w + rest) == w + CollapseSpaces(rest)
    decreases |w|
  {
    if w != [] {
      assert (w + rest)[1..] == w[1..] + rest;
      CollapseToken(w[1..], rest);
      assert w == [w[0]] + w[1..];
    } else {
      assert w + rest == rest;
    }
  }

  /** Collapsing whitespace runs keeps the words. */
  lemma {:induction false} SplitCollapse(s: string)
    ensures Split(CollapseSpaces(s)) == Split(s)
    decreases |s|
  {
    if s != [] {
      if IsSpace(s[0]) {
        var t := LStrip(s);
        SplitCollapse(t);
        SplitLeadingSpace(' ', CollapseSpaces(t));
        assert " " + CollapseSpaces(t) == [' '] + CollapseSpaces(t);
        SplitLStrip(s);
      } else {
        var n := TokenLen(s);
        var w, rest := s[..n], s[n..];
        assert s == w + rest;
        CollapseToken(w, rest);
        SplitCollapse(rest);
        SplitToken(w, CollapseSpaces(rest));
      }
    }
  }

  predicate IsDigit(c: char) { '0' <= c <= '9' }

  predicate AllDigits(s: string) {
    |s| > 0 && forall i :: 0 <= i < |s| ==> IsDigit(s[i])
  }

  function DigitsValue(s: string): (v: int)
    requires forall i :: 0 <= i < |s| ==> IsDigit(s[i])
    ensures v >= 0
  {
    if s == [] then 0
    else
      assert IsDigit(s[|s| - 1]);
      10 * DigitsValue(s[..|s| - 1]) + (s[|s| - 1] as int - '0' as int)
  }

  /** `int(s)` for a whitespace-free field: an optional sign and decimal digits; `None` where Python raises. */
  function ParseInt(s: string): Option<int> {
    if |s| > 1 && s[0] == '-' && AllDigits(s[1..]) then Some(-DigitsValue(s[1..]))
    else if |s| > 1 && s[0] == '+' && AllDigits(s[1..]) then Some(DigitsValue(s[1..]))
    else if AllDigits(s) then Some(DigitsValue(s))
    else None
  }

  function NatToString(n: nat): (r: string)
    ensures AllDigits(r)
  {
    var d := ['0' + (n % 10) as char];
    if n < 10 then d else NatToString(n / 10) + d
  }

  /** `str(n)`. */
  function IntToString(n: int): string {
    if n < 0 then "-" + NatToString(-n) else NatToString(n)
  }

  lemma {:induction false} NatToStringValue(n: nat)
    ensures DigitsValue(NatToString(n)) == n
  {
    var r := NatToString(n);
    if n >= 10 {
      NatToStringValue(n / 10);
      assert r[..|r| - 1] == NatToString(n / 10);
    }
  }

  /** `int(str(n)) == n`. */
  lemma IntToStringRoundTrip(n: int)
    ensures ParseInt(IntToString(n)) == Some(n)
  {
    NatToStringValue(if n < 0 then -n else n);
    if n < 0 {
      assert IntToString(n)[1..] == NatToString(-n);
    }
  }

  /** `repr(s)` for a string without quotes or backslashes. */
  function QuoteRepr(s: string): string {
    "'" + s + "'"
  }

  function QuoteAll(xs: seq<string>): (r: seq<string>)
    ensures |r| == |xs|
  {
    if xs == [] then [] else [QuoteRepr(xs[0])] + QuoteAll(xs[1..])
  }

  /** `str(xs)` for a list of strings: `['C', 'I', 'C']`. */
  function ListRepr(xs: seq<string>): string {
    "[" + Join(", ", QuoteAll(xs)) + "]"
  }
}
