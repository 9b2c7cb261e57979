/**
 * The Python string operations the tool relies on, restricted to ASCII:
 * whitespace splitting with and without a split limit, stripping, case
 * mapping, substring search and replacement, and the `int()` parser.
 */
module Text {
  import opened Common

  // ---------------------------------------------------------------------
  // Character classes
  // ---------------------------------------------------------------------

  /** The ASCII characters Python's str.isspace() and the regex class \s accept. */
  predicate IsSpace(c: char)
  {
    c == ' ' || c == '\t' || c == '\n' || c == '\r' || c == '\U{000B}' || c == '\U{000C}'
    || c == '\U{001C}' || c == '\U{001D}' || c == '\U{001E}' || c == '\U{001F}'
  }

  predicate IsDigit(c: char) { '0' <= c <= '9' }

  predicate IsHexDigit(c: char) { IsDigit(c) || 'a' <= c <= 'f' || 'A' <= c <= 'F' }

  /** A character of the class [0-9A-F]. */
  predicate IsUpperHexDigit(c: char) { IsDigit(c) || 'A' <= c <= 'F' }

  predicate NoSpace(s: string) { forall i :: 0 <= i < |s| ==> !IsSpace(s[i]) }

  predicate AllHex(s: string) { forall i :: 0 <= i < |s| ==> IsHexDigit(s[i]) }

  /** Python str.isdigit() on ASCII text: non-empty and only digits. */
  predicate IsDigits(s: string) { |s| > 0 && forall i :: 0 <= i < |s| ==> IsDigit(s[i]) }

  function LowerChar(c: char): char
  {
    if 'A' <= c <= 'Z' then (c as int + 32) as char else c
  }

  function UpperChar(c: char): char
  {
    if 'a' <= c <= 'z' then (c as int - 32) as char else c
  }

  // ---------------------------------------------------------------------
  // Case mapping and character removal
  // ---------------------------------------------------------------------

  /** str.lower() */
  function Lower(s: string): (r: string)
    ensures |r| == |s|
    ensures forall i :: 0 <= i < |s| ==> r[i] == LowerChar(s[i])
  {
    if s == [] then [] else [LowerChar(s[0])] + Lower(s[1..])
  }

  /** str.upper() */
  function Upper(s: string): (r: string)
    ensures |r| == |s|
    ensures forall i :: 0 <= i < |s| ==> r[i] == UpperChar(s[i])
  {
    if s == [] then [] else [UpperChar(s[0])] + Upper(s[1..])
  }

  /** A chain of `s.replace(c, '')` calls, one for each c in cs. */
  function Remove(s: string, cs: set<char>): (r: string)
    ensures |r| <= |s|
    ensures forall i :: 0 <= i < |r| ==> r[i] !in cs
  {
    if s == [] then [] else (if s[0] in cs then [] else [s[0]]) + Remove(s[1..], cs)
  }

  /** Remove keeps every character outside cs. */
  lemma {:induction false} RemoveKeeps(s: string, cs: set<char>, i: nat)
    requires i < |s| && s[i] !in cs
    ensures s[i] in Remove(s, cs)
  {
    if i > 0 {
      RemoveKeeps(s[1..], cs, i - 1);
    }
  }

  /** Remove only keeps characters of s. */
  lemma {:induction false} RemoveFrom(s: string, cs: set<char>)
    ensures forall c :: c in Remove(s, cs) ==> c in s
  {
    if s != [] {
      RemoveFrom(s[1..], cs);
    }
  }

  /** The three MAC separators the recognisers strip out. */
  const MacSeparators: set<char> := {':', '.', '-'}

  lemma {:induction false} RemoveAppend(a: string, b: string, cs: set<char>)
    ensures Remove(a + b, cs) == Remove(a, cs) + Remove(b, cs)
  {
    if a == [] {
      assert a + b == b;
    } else {
      assert (a + b)[1..] == a[1..] + b;
      RemoveAppend(a[1..], b, cs);
    }
  }

  /** Removing characters that do not occur changes nothing. */
  lemma {:induction false} RemoveNone(s: string, cs: set<char>)
    requires forall i :: 0 <= i < |s| ==> s[i] !in cs
    ensures Remove(s, cs) == s
  {
    if s != [] {
      RemoveNone(s[1..], cs);
    }
  }

  /** Text whose every character lowers to the matching character of t lowers to t. */
  lemma LowerByChars(s: string, t: string)
    requires |s| == |t| && forall i :: 0 <= i < |s| ==> LowerChar(s[i]) == t[i]
    ensures Lower(s) == t
  {
  }

  lemma {:induction false} LowerAppend(a: string, b: string)
    ensures Lower(a + b) == Lower(a) + Lower(b)
  {
    assert Lower(a + b) == Lower(a) + Lower(b);
  }

  // ---------------------------------------------------------------------
  // Prefixes, suffixes and substrings
  // ---------------------------------------------------------------------

  /** str.startswith(p) */
  predicate StartsWith(s: string, p: string) { |p| <= |s| && s[..|p|] == p }

  /** str.endswith(p) */
  predicate EndsWith(s: string, p: string) { |p| <= |s| && s[|s| - |p|..] == p }

  /** The `sub in s` test. */
  predicate Contains(s: string, sub: string)
    decreases |s|
  {
    StartsWith(s, sub) || (|s| > 0 && Contains(s[1..], sub))
  }

  lemma {:induction false} ContainsPrefix(a: string, b: string, sub: string)
    requires Contains(a, sub)
    ensures Contains(a + b, sub)
  {
    if StartsWith(a, sub) {
      assert (a + b)[..|sub|] == a[..|sub|];
    } else {
      assert (a + b)[1..] == a[1..] + b;
      ContainsPrefix(a[1..], b, sub);
    }
  }

  lemma {:induction false} ContainsSuffix(a: string, b: string, sub: string)
    requires Contains(b, sub)
    ensures Contains(a + b, sub)
  {
    if a == [] {
      assert a + b == b;
    } else {
      assert (a + b)[1..] == a[1..] + b;
      ContainsSuffix(a[1..], b, sub);
    }
  }

  lemma ContainsSelf(s: string)
    ensures Contains(s, s)
  {
    assert s[..|s|] == s;
  }

  /** Lower-casing both sides keeps a substring a substring. */
  lemma {:induction false} ContainsLower(s: string, sub: string)
    requires Contains(s, sub)
    ensures Contains(Lower(s), Lower(sub))
    decreases |s|
  {
    if StartsWith(s, sub) {
      assert Lower(s)[..|sub|] == Lower(sub);
    } else {
      ContainsLower(s[1..], sub);
      assert Lower(s)[1..] == Lower(s[1..]);
    }
  }

  /** Text lacking one of the characters of sub does not contain sub. */
  lemma LacksChar(s: string, sub: string, i: nat)
    requires i < |sub| && sub[i] !in s
    ensures !Contains(s, sub)
  {
    if Contains(s, sub) {
      ContainsChars(s, sub);
      assert false;
    }
  }

  /** A substring only holds characters of the string it occurs in. */
  lemma {:induction false} ContainsChars(s: string, sub: string)
    requires Contains(s, sub)
    ensures forall i :: 0 <= i < |sub| ==> sub[i] in s
  {
    if StartsWith(s, sub) {
      forall i | 0 <= i < |sub| ensures sub[i] in s {
        assert s[i] == sub[i];
      }
    } else {
      ContainsChars(s[1..], sub);
      forall i | 0 <= i < |sub| ensures sub[i] in s {
        assert sub[i] in s[1..];
      }
    }
  }

  // ---------------------------------------------------------------------
  // Stripping and whitespace splitting
  // ---------------------------------------------------------------------

  /** The suffix of s after its leading whitespace. */
  function SkipSpace(s: string): (r: string)
    ensures |r| <= |s| && r == s[|s| - |r|..]
    ensures r == [] || !IsSpace(r[0])
    ensures forall i :: 0 <= i < |s| - |r| ==> IsSpace(s[i])
  {
    if s != [] && IsSpace(s[0]) then SkipSpace(s[1..]) else s
  }

  /** The prefix of s before its trailing whitespace. */
  function TrimEnd(s: string): (r: string)
    ensures |r| <= |s| && r == s[..|r|]
    ensures r == [] || !IsSpace(r[|r| - 1])
    ensures forall i :: |r| <= i < |s| ==> IsSpace(s[i])
  {
    if s != [] && IsSpace(s[|s| - 1]) then TrimEnd(s[..|s| - 1]) else s
  }

  /** str.strip() */
  function Strip(s: string): (r: string)
    ensures r == [] || (!IsSpace(r[0]) && !IsSpace(r[|r| - 1]))
  {
    TrimEnd(SkipSpace(s))
  }

  /** Text without surrounding whitespace is its own strip. */
  lemma StripNoop(s: string)
    requires s == [] || (!IsSpace(s[0]) && !IsSpace(s[|s| - 1]))
    ensures Strip(s) == s
  {
  }

  /** The length of the run of non-space characters at the start of s. */
  function WordEnd(s: string): (n: nat)
    ensures n <= |s|
    ensures s != [] && !IsSpace(s[0]) ==> n > 0
    ensures n < |s| ==> IsSpace(s[n])
    ensures forall i :: 0 <= i < n ==> !IsSpace(s[i])
  {
    if s == [] || IsSpace(s[0]) then 0 else 1 + WordEnd(s[1..])
  }

  /** str.split() with no arguments. */
  function Words(s: string): (r: seq<string>)
    ensures forall i :: 0 <= i < |r| ==> r[i] != [] && NoSpace(r[i])
    decreases |s|
  {
    if s == [] then []
    else if IsSpace(s[0]) then Words(s[1..])
    else
      var n := WordEnd(s);
      [s[..n]] + Words(s[n..])
  }

  /** str.split(None, maxsplit): the last piece keeps the unsplit rest of the line. */
  function SplitN(s: string, maxsplit: nat): (r: seq<string>)
    ensures |r| <= maxsplit + 1
    decreases |s|
  {
    if s == [] then []
    else if IsSpace(s[0]) then SplitN(s[1..], maxsplit)
    else if maxsplit == 0 then [s]
    else
      var n := WordEnd(s);
      [s[..n]] + SplitN(s[n..], maxsplit - 1)
  }

  /** Whitespace-only text has no words. */
  lemma {:induction false} WordsOfSpaces(s: string)
    requires forall i :: 0 <= i < |s| ==> IsSpace(s[i])
    ensures Words(s) == []
  {
    if s != [] {
      WordsOfSpaces(s[1..]);
    }
  }

  /** Leading whitespace is skipped. */
  lemma {:induction false} WordsAfterSpaces(sp: string, b: string)
    requires forall i :: 0 <= i < |sp| ==> IsSpace(sp[i])
    ensures Words(sp + b) == Words(b)
  {
    if sp == [] {
      assert sp + b == b;
    } else {
      assert (sp + b)[1..] == sp[1..] + b;
      WordsAfterSpaces(sp[1..], b);
    }
  }

  /** A single run of non-space characters is one word. */
  lemma WordsOfWord(w: string)
    requires w != [] && NoSpace(w)
    ensures Words(w) == [w]
  {
    var n := WordEnd(w);
    assert n == |w|;
    assert w[..n] == w;
    assert w[n..] == [];
  }

  /** Two pieces of text separated by whitespace split into the words of each. */
  lemma {:induction false} WordsConcatSpace(a: string, sp: string, b: string)
    requires sp != [] && forall i :: 0 <= i < |sp| ==> IsSpace(sp[i])
    ensures Words(a + sp + b) == Words(a) + Words(b)
    decreases |a|, 1
  {
    var s := a + sp + b;
    if a == [] {
      assert s == sp + b;
      WordsAfterSpaces(sp, b);
    } else if IsSpace(a[0]) {
      assert s[1..] == a[1..] + sp + b;
      WordsConcatSpace(a[1..], sp, b);
    } else {
      WordsConcatWord(a, sp, b);
    }
  }

  /** Text, a run of whitespace, a word, more whitespace and a last word: the text's words and the two words. */
  lemma WordsThenTwo(a: string, sa: string, x: string, sb: string, y: string)
    requires sa != [] && forall i :: 0 <= i < |sa| ==> IsSpace(sa[i])
    requires sb != [] && forall i :: 0 <= i < |sb| ==> IsSpace(sb[i])
    requires x != [] && NoSpace(x) && y != [] && NoSpace(y)
    ensures Words(a + sa + (x + sb + y)) == Words(a) + [x, y]
  {
    WordsConcatSpace(a, sa, x + sb + y);
    WordsConcatSpace(x, sb, y);
    WordsOfWord(x);
    WordsOfWord(y);
  }

  /** The case of WordsConcatSpace where a starts with a word. */
  lemma {:induction false} WordsConcatWord(a: string, sp: string, b: string)
    requires sp != [] && forall i :: 0 <= i < |sp| ==> IsSpace(sp[i])
    requires a != [] && !IsSpace(a[0])
    ensures Words(a + sp + b) == Words(a) + Words(b)
    decreases |a|, 0
  {
    var s := a + sp + b;
    var n := WordEnd(a);
    assert s == a + (sp + b);
    WordEndPrefix(a, sp + b);
    assert s[..n] == a[..n];
    assert Words(s) == [s[..n]] + Words(s[n..]);
    assert Words(a) == [a[..n]] + Words(a[n..]);
    if n < |a| {
      assert s[n..] == a[n..] + sp + b;
      WordsConcatSpace(a[n..], sp, b);
    } else {
      assert s[n..] == sp + b;
      assert a[n..] == [];
      WordsAfterSpaces(sp, b);
    }
  }

  /** Two pieces of text joined by one space split into the words of each. */
  lemma WordsConcatOneSpace(a: string, b: string)
    ensures Words(a + " " + b) == Words(a) + Words(b)
  {
    assert IsSpace(" "[0]);
    WordsConcatSpace(a, " ", b);
  }

  /** Stripping does not change the words of a line: line.strip().split() == line.split(). */
  lemma WordsStrip(s: string)
    ensures Words(Strip(s)) == Words(s)
  {
    WordsSkipSpace(s);
    WordsTrimEnd(SkipSpace(s));
  }

  /** Leading whitespace makes no word. */
  lemma WordsSkipSpace(s: string)
    ensures Words(SkipSpace(s)) == Words(s)
  {
    var u := SkipSpace(s);
    var k := |s| - |u|;
    assert s == s[..k] + u;
    WordsAfterSpaces(s[..k], u);
  }

  /** Trailing whitespace makes no word. */
  lemma WordsTrimEnd(u: string)
    ensures Words(TrimEnd(u)) == Words(u)
  {
    var t := TrimEnd(u);
    var sp := u[|t|..];
    assert u == t + sp + [];
    if sp != [] {
      WordsConcatSpace(t, sp, []);
      assert Words([]) == [];
      assert Words(t) + [] == Words(t);
    }
  }

  /** Skipping the leading spaces of a text whose first part is all spaces. */
  lemma {:induction false} SkipSpaceOver(a: string, b: string)
    requires forall i :: 0 <= i < |a| ==> IsSpace(a[i])
    ensures SkipSpace(a + b) == SkipSpace(b)
  {
    if a != [] {
      assert (a + b)[1..] == a[1..] + b;
      SkipSpaceOver(a[1..], b);
    } else {
      assert a + b == b;
    }
  }

  /** Leading-space skipping stops inside a when a holds a non-space character. */
  lemma {:induction false} SkipSpacePrefix(a: string, b: string)
    requires SkipSpace(a) != []
    ensures SkipSpace(a + b) == SkipSpace(a) + b
  {
    if a != [] && IsSpace(a[0]) {
      assert (a + b)[1..] == a[1..] + b;
      SkipSpacePrefix(a[1..], b);
    }
  }

  /** A word that ends inside a ends at the same place in a + b when b starts with a space. */
  lemma {:induction false} WordEndPrefix(a: string, b: string)
    requires b != [] && IsSpace(b[0])
    ensures WordEnd(a + b) == WordEnd(a)
  {
    if a == [] {
      assert a + b == b;
    } else if !IsSpace(a[0]) {
      assert (a + b)[1..] == a[1..] + b;
      WordEndPrefix(a[1..], b);
    }
  }

  // ---------------------------------------------------------------------
  // Splitting on a set of separator characters and joining
  // ---------------------------------------------------------------------

  /** The index of the first character of s in cs, or |s| when there is none. */
  function FirstOf(s: string, cs: set<char>): (n: nat)
    ensures n <= |s|
    ensures n < |s| ==> s[n] in cs
    ensures forall i :: 0 <= i < n ==> s[i] !in cs
  {
    if s == [] || s[0] in cs then 0 else 1 + FirstOf(s[1..], cs)
  }

  /**
   * re.split over a one-character class, and str.split(c) when cs == {c}:
   * every separator cuts, so neighbouring separators leave empty pieces.
   */
  function SplitOn(s: string, cs: set<char>): (r: seq<string>)
    ensures |r| >= 1
    ensures forall i :: 0 <= i < |r| ==> forall j :: 0 <= j < |r[i]| ==> r[i][j] !in cs
    decreases |s|
  {
    var n := FirstOf(s, cs);
    if n == |s| then [s] else [s[..n]] + SplitOn(s[n + 1..], cs)
  }

  /** ''.join(parts) */
  function Concat(parts: seq<string>): string
  {
    if parts == [] then [] else parts[0] + Concat(parts[1..])
  }

  lemma ConsTwo<T>(a: T, b: T, rest: seq<T>)
    ensures [a] + ([b] + rest) == [a, b] + rest
  {
  }

  lemma Concat3(a: string, b: string, c: string)
    ensures Concat([a, b, c]) == a + b + c
  {
    assert [c][1..] == [] && Concat([c]) == c + Concat([]);
    assert [b, c][1..] == [c] && Concat([b, c]) == b + c;
    assert [a, b, c][1..] == [b, c];
  }

  /** sep.join(parts) */
  function Join(sep: string, parts: seq<string>): string
  {
    if parts == [] then []
    else if |parts| == 1 then parts[0]
    else parts[0] + sep + Join(sep, parts[1..])
  }

  /** Gluing the pieces back together is the same as deleting the separators. */
  lemma {:induction false} ConcatSplitOn(s: string, cs: set<char>)
    ensures Concat(SplitOn(s, cs)) == Remove(s, cs)
    decreases |s|
  {
    var n := FirstOf(s, cs);
    RemoveNone(s[..n], cs);
    if n == |s| {
      assert s[..n] == s;
    } else {
      var head, tail := s[..n], s[n + 1..];
      var rest := SplitOn(tail, cs);
      ConcatSplitOn(tail, cs);
      assert SplitOn(s, cs) == [head] + rest;
      assert Concat([head] + rest) == head + Concat(rest) by {
        assert ([head] + rest)[1..] == rest;
      }
      SplitAround(s, n);
      RemoveAppend(head, [s[n]] + tail, cs);
      assert Remove([s[n]] + tail, cs) == Remove(tail, cs) by {
        assert ([s[n]] + tail)[1..] == tail;
      }
    }
  }

  /** Text without separators is one piece. */
  lemma SplitOnWhole(a: string, cs: set<char>)
    requires forall i :: 0 <= i < |a| ==> a[i] !in cs
    ensures SplitOn(a, cs) == [a]
  {
  }

  /** The first separator cuts off the text before it. */
  lemma SplitOnCut(a: string, c: char, b: string, cs: set<char>)
    requires forall i :: 0 <= i < |a| ==> a[i] !in cs
    requires c in cs
    ensures SplitOn(a + [c] + b, cs) == [a] + SplitOn(b, cs)
  {
    var s := a + [c] + b;
    assert FirstOf(s, cs) == |a| by {
      assert s[|a|] == c;
      forall i | 0 <= i < |a| ensures s[i] !in cs {
        assert s[i] == a[i];
      }
      FirstOfAt(s, cs, |a|);
    }
    assert s[..|a|] == a;
    assert s[|a| + 1..] == b;
  }

  lemma {:induction false} FirstOfAt(s: string, cs: set<char>, n: nat)
    requires n < |s| && s[n] in cs && forall i :: 0 <= i < n ==> s[i] !in cs
    ensures FirstOf(s, cs) == n
  {
    if n > 0 {
      FirstOfAt(s[1..], cs, n - 1);
    }
  }

  /** With splits left, str.split(None, n) takes off the first word. */
  lemma SplitNWord(w: string, rest: string, n: nat)
    requires w != [] && NoSpace(w)
    ensures SplitN(w + " " + rest, n + 1) == [w] + SplitN(rest, n)
  {
    var s := w + " " + rest;
    assert s == w + (" " + rest);
    WordEndPrefix(w, " " + rest);
    WordEndAll(w);
    assert s[..|w|] == w;
    assert s[|w|..] == " " + rest;
    assert (" " + rest)[1..] == rest;
  }

  lemma {:induction false} WordEndAll(w: string)
    requires NoSpace(w)
    ensures WordEnd(w) == |w|
  {
    if w != [] {
      WordEndAll(w[1..]);
    }
  }

  /** Words joined by single spaces split back into those words when the splits run out at the last one. */
  lemma {:induction false} SplitNJoin(ws: seq<string>)
    requires |ws| >= 1
    requires forall i :: 0 <= i < |ws| - 1 ==> ws[i] != [] && NoSpace(ws[i])
    requires ws[|ws| - 1] != [] && !IsSpace(ws[|ws| - 1][0])
    ensures SplitN(Join(" ", ws), |ws| - 1) == ws
    decreases |ws|
  {
    if |ws| == 1 {
      SplitNLast(ws[0]);
    } else {
      var rest := ws[1..];
      SplitNJoin(rest);
      SplitNWord(ws[0], Join(" ", rest), |ws| - 2);
      assert ws == [ws[0]] + rest;
    }
  }

  /** With no splits left, the rest of the line is the last piece. */
  lemma SplitNLast(x: string)
    requires x != [] && !IsSpace(x[0])
    ensures SplitN(x, 0) == [x]
  {
  }

  /** A single word is the only piece, however many splits are left. */
  lemma SplitNWordAlone(w: string, n: nat)
    requires w != [] && NoSpace(w)
    ensures SplitN(w, n) == [w]
  {
    assert !IsSpace(w[0]);
    if n > 0 {
      WordEndAll(w);
      assert w[..WordEnd(w)] == w;
      assert w[WordEnd(w)..] == [];
      assert SplitN(w, n) == [w] + SplitN([], n - 1);
    }
  }

  /** Leading zeros do not change a decimal value. */
  lemma {:induction false} DecimalValueLeadingZero(d: string)
    ensures DecimalValue("0" + d) == DecimalValue(d)
  {
    if d != [] {
      DecimalValueLeadingZero(d[..|d| - 1]);
      assert ("0" + d)[..|d|] == "0" + d[..|d| - 1];
    } else {
      assert DecimalValue("0") == DecimalValue("") + DigitValue('0');
    }
  }

  // ---------------------------------------------------------------------
  // Substring replacement and padding
  // ---------------------------------------------------------------------

  /** str.replace(pat, rep): every non-overlapping occurrence, left to right. */
  function ReplaceAll(s: string, pat: string, rep: string): string
    requires pat != []
    decreases |s|
  {
    if |s| < |pat| then s
    else if s[..|pat|] == pat then rep + ReplaceAll(s[|pat|..], pat, rep)
    else [s[0]] + ReplaceAll(s[1..], pat, rep)
  }

  /** Replacing a pattern that does not occur changes nothing. */
  lemma {:induction false} ReplaceAbsent(s: string, pat: string, rep: string)
    requires pat != [] && !Contains(s, pat)
    ensures ReplaceAll(s, pat, rep) == s
    decreases |s|
  {
    if |s| >= |pat| {
      assert s[..|pat|] != pat;
      ReplaceAbsent(s[1..], pat, rep);
    }
  }

  /** Text before the pattern's first character can hold no occurrence and is kept as it is. */
  lemma {:induction false} ReplaceSkip(a: string, b: string, pat: string, rep: string)
    requires pat != [] && pat[0] !in a
    ensures ReplaceAll(a + b, pat, rep) == a + ReplaceAll(b, pat, rep)
    decreases |a|
  {
    if a != [] {
      var s := a + b;
      assert s[1..] == a[1..] + b;
      ReplaceSkip(a[1..], b, pat, rep);
      if |s| >= |pat| {
        assert s[..|pat|][0] == a[0] != pat[0];
        assert ReplaceAll(s, pat, rep) == [a[0]] + ReplaceAll(s[1..], pat, rep);
      } else {
        assert ReplaceAll(b, pat, rep) == b;
      }
      assert a == [a[0]] + a[1..];
    } else {
      assert a + b == b;
    }
  }

  /** An occurrence at the very end is replaced. */
  lemma ReplaceWhole(pat: string, rep: string)
    requires pat != []
    ensures ReplaceAll(pat, pat, rep) == rep
  {
    assert pat[|pat|..] == [];
  }

  /** c * n */
  function RepeatChar(c: char, n: nat): (r: string)
    ensures |r| == n && forall i :: 0 <= i < n ==> r[i] == c
  {
    seq(n, _ => c)
  }

  /** s[:n] */
  function Take(s: string, n: nat): (r: string)
    ensures |r| == if |s| <= n then |s| else n
    ensures r == s[..|r|]
  {
    if |s| <= n then s else s[..n]
  }

  function Spaces(n: nat): (r: string)
    ensures |r| == n && forall i :: 0 <= i < n ==> r[i] == ' '
  {
    seq(n, _ => ' ')
  }

  /** The format spec `<w`: pad on the right to width w. */
  function LeftAlign(s: string, w: nat): (r: string)
    ensures |r| == if |s| < w then w else |s|
  {
    if |s| < w then s + Spaces(w - |s|) else s
  }

  /** The format spec `>w`: pad on the left to width w. */
  function RightAlign(s: string, w: nat): (r: string)
    ensures |r| == if |s| < w then w else |s|
  {
    if |s| < w then Spaces(w - |s|) + s else s
  }

  /** str.rstrip(c) for a single character c. */
  function TrimEndChar(s: string, c: char): (r: string)
    ensures |r| <= |s| && r == s[..|r|] && (r == [] || r[|r| - 1] != c)
  {
    if s != [] && s[|s| - 1] == c then TrimEndChar(s[..|s| - 1], c) else s
  }

  /** The position of the first element equal to w (list.index), or |ws| when absent. */
  function IndexOf(ws: seq<string>, w: string): (n: nat)
    ensures n <= |ws|
    ensures n < |ws| ==> ws[n] == w
    ensures forall i :: 0 <= i < n ==> ws[i] != w
  {
    if ws == [] then 0 else if ws[0] == w then 0 else 1 + IndexOf(ws[1..], w)
  }

  // ---------------------------------------------------------------------
  // int() and str() on integers
  // ---------------------------------------------------------------------

  predicate IsDigitIn(c: char, hex: bool) { if hex then IsHexDigit(c) else IsDigit(c) }

  /** Digits of one base with single underscores between digits, as int() accepts. */
  predicate DigitRun(s: string, hex: bool)
  {
    |s| > 0 && IsDigitIn(s[0], hex) && IsDigitIn(s[|s| - 1], hex)
    && (forall i :: 0 <= i < |s| ==> IsDigitIn(s[i], hex) || s[i] == '_')
    && (forall i :: 0 <= i < |s| - 1 ==> s[i] == '_' ==> s[i + 1] != '_')
  }

  /** The text left after an optional leading sign. */
  function Unsigned(t: string): string
  {
    if |t| > 0 && (t[0] == '+' || t[0] == '-') then t[1..] else t
  }

  function DigitValue(c: char): nat
  {
    if IsDigit(c) then c as int - '0' as int
    else if 'a' <= c <= 'f' then c as int - 'a' as int + 10
    else if 'A' <= c <= 'F' then c as int - 'A' as int + 10
    else 0
  }

  /** The value of decimal digits, ignoring underscores. */
  function DecimalValue(s: string): nat
  {
    if s == [] then 0
    else if s[|s| - 1] == '_' then DecimalValue(s[..|s| - 1])
    else DecimalValue(s[..|s| - 1]) * 10 + DigitValue(s[|s| - 1])
  }

  /** Python int(s): surrounding whitespace, an optional sign, then a digit run. */
  function ParseInt(s: string): (r: Option<int>)
    ensures r.Some? ==> DigitRun(Unsigned(Strip(s)), false)
  {
    var t := Strip(s);
    var body := Unsigned(t);
    if !DigitRun(body, false) then None
    else if t[0] == '-' then Some(-(DecimalValue(body) as int))
    else Some(DecimalValue(body))
  }

  /** Whether Python int(s, 16) returns a value instead of raising ValueError. */
  predicate HexParses(s: string)
  {
    var body := Unsigned(Strip(s));
    if |body| >= 2 && body[0] == '0' && (body[1] == 'x' || body[1] == 'X') then
      var rest := body[2..];
      DigitRun(rest, true) || (|rest| > 0 && rest[0] == '_' && DigitRun(rest[1..], true))
    else DigitRun(body, true)
  }

  /** Non-empty hex digits always parse. */
  lemma HexDigitsParse(s: string)
    requires |s| > 0 && AllHex(s)
    ensures HexParses(s)
  {
    assert !IsSpace(s[0]) && !IsSpace(s[|s| - 1]);
    StripNoop(s);
    assert Unsigned(s) == s;
  }

  /** The characters int(s, 16) can accept: hex digits, '_', the 'x' of a 0x prefix, a sign and whitespace. */
  predicate HexTextChar(c: char)
  {
    IsHexDigit(c) || c == '_' || c == 'x' || c == 'X' || c == '+' || c == '-' || IsSpace(c)
  }

  predicate HexText(s: string) { forall i :: 0 <= i < |s| ==> HexTextChar(s[i]) }

  lemma DigitRunHexText(s: string)
    requires DigitRun(s, true)
    ensures HexText(s)
  {
  }

  lemma UnsignedHexText(t: string)
    requires HexText(Unsigned(t))
    ensures HexText(t)
  {
    if |t| > 0 && (t[0] == '+' || t[0] == '-') {
      forall i | 0 < i < |t| ensures HexTextChar(t[i]) {
        assert t[i] == Unsigned(t)[i - 1];
      }
    }
  }

  lemma StripHexText(s: string)
    requires HexText(Strip(s))
    ensures HexText(s)
  {
    var u := SkipSpace(s);
    var t := TrimEnd(u);
    forall i | 0 <= i < |u| ensures HexTextChar(u[i]) {
      if i < |t| {
        assert u[i] == t[i];
      }
    }
    forall i | 0 <= i < |s| ensures HexTextChar(s[i]) {
      if i >= |s| - |u| {
        assert s[i] == u[i - (|s| - |u|)];
      }
    }
  }

  /** int(s, 16) rejects any text holding a character other than those. */
  lemma HexParsesText(s: string)
    requires HexParses(s)
    ensures HexText(s)
  {
    var body := Unsigned(Strip(s));
    if |body| >= 2 && body[0] == '0' && (body[1] == 'x' || body[1] == 'X') {
      var rest := body[2..];
      if DigitRun(rest, true) {
        DigitRunHexText(rest);
      } else {
        DigitRunHexText(rest[1..]);
        forall i | 0 <= i < |rest| ensures HexTextChar(rest[i]) {
          if i > 0 { assert rest[i] == rest[1..][i - 1]; }
        }
      }
      forall i | 0 <= i < |body| ensures HexTextChar(body[i]) {
        if i >= 2 { assert body[i] == rest[i - 2]; }
      }
    } else {
      DigitRunHexText(body);
    }
    UnsignedHexText(Strip(s));
    StripHexText(s);
  }

  function DigitChar(d: nat): char
    requires d < 10
  {
    ('0' as int + d) as char
  }

  /** str(n) for a non-negative integer. */
  function NatToString(n: nat): (r: string)
    ensures |r| > 0 && forall i :: 0 <= i < |r| ==> IsDigit(r[i])
  {
    if n < 10 then [DigitChar(n)] else NatToString(n / 10) + [DigitChar(n % 10)]
  }

  /** str(n) */
  function IntToString(n: int): (r: string)
    ensures |r| > 0
  {
    if n < 0 then "-" + NatToString(-n) else NatToString(n)
  }

  lemma {:induction false} DecimalValueOfNat(n: nat)
    ensures DecimalValue(NatToString(n)) == n
  {
    var s := NatToString(n);
    if n >= 10 {
      DecimalValueOfNat(n / 10);
      assert s[..|s| - 1] == NatToString(n / 10);
    }
  }

  /** int(str(n)) == n */
  lemma ParseIntToString(n: int)
    ensures ParseInt(IntToString(n)) == Some(n)
  {
    var m := if n < 0 then -n else n;
    var d := NatToString(m);
    DecimalValueOfNat(m);
    if n < 0 {
      ParseIntNegDigits(d, m);
    } else {
      ParseIntDigits(d, m);
    }
  }

  /** int(d) for a run of decimal digits is its value, and the run has no whitespace. */
  lemma ParseIntDigits(d: string, v: nat)
    requires IsDigits(d) && DecimalValue(d) == v
    ensures NoSpace(d) && ParseInt(d) == Some(v)
  {
    StripNoop(d);
    assert Unsigned(d) == d;
    assert DigitRun(d, false);
  }

  /** int("-" + d) for a run of decimal digits is minus its value. */
  lemma ParseIntNegDigits(d: string, v: nat)
    requires IsDigits(d) && DecimalValue(d) == v
    ensures ParseInt("-" + d) == Some(-(v as int))
  {
    var s := "-" + d;
    assert s[0] == '-' && s[1..] == d;
    assert s[|s| - 1] == d[|d| - 1];
    StripNoop(s);
    assert Unsigned(s) == d;
    assert DigitRun(d, false);
  }

  /** int("0" + str(n)) == n, and the padded text has no whitespace. */
  lemma ParseIntZeroPadded(n: nat)
    ensures NoSpace("0" + NatToString(n)) && ParseInt("0" + NatToString(n)) == Some(n)
  {
    var d := NatToString(n);
    var w := "0" + d;
    assert forall i :: 0 < i < |w| ==> w[i] == d[i - 1];
    DecimalValueLeadingZero(d);
    DecimalValueOfNat(n);
    ParseIntDigits(w, n);
  }

  lemma IntToStringNoSpace(n: int)
    ensures NoSpace(IntToString(n))
  {
    var s := IntToString(n);
    var d := NatToString(if n < 0 then -n else n);
    forall i | 0 <= i < |s| ensures !IsSpace(s[i]) {
      if n < 0 && i > 0 {
        assert s[i] == d[i - 1];
      }
    }
  }
}
