/**
 * Text shapes of an EUI-48 address (IEEE Std 802-2014, clause 8): twelve hex
 * digits, optionally grouped in pairs with ':' or '-' or in fours with '.'
 * (the Cisco style). The recognisers in the other modules undo these
 * groupings by deleting the separator characters.
 */
module MacText {
  import opened Text

  /** Twelve characters in six pairs joined by sep: xx:xx:xx:xx:xx:xx for sep == ':'. */
  function PairForm(h: string, sep: char): string
    requires |h| == 12
  {
    h[0..2] + [sep] + h[2..4] + [sep] + h[4..6] + [sep] + h[6..8] + [sep] + h[8..10] + [sep] + h[10..12]
  }

  /** ':'.join(h[i:i+2] for i in range(0, 12, 2)) */
  function ColonForm(h: string): string
    requires |h| == 12
  {
    PairForm(h, ':')
  }

  /** The Cisco style xxxx.xxxx.xxxx */
  function DotForm(h: string): string
    requires |h| == 12
  {
    h[0..4] + "." + h[4..8] + "." + h[8..12]
  }

  /** Characters, none of which is in cs. */
  predicate Avoids(s: string, cs: set<char>)
  {
    forall i :: 0 <= i < |s| ==> s[i] !in cs
  }

  lemma RemoveAround(a: string, sep: char, b: string, cs: set<char>)
    requires sep in cs
    ensures Remove(a + [sep] + b, cs) == Remove(a, cs) + Remove(b, cs)
  {
    var x := Remove(a, cs);
    var y := Remove(b, cs);
    RemoveAppend(a + [sep], b, cs);
    RemoveAppend(a, [sep], cs);
    assert [sep][1..] == [];
    assert Remove([sep], cs) == [] + Remove([], cs);
    assert Remove(a + [sep], cs) == x;
  }

  /** Deleting the separators undoes the pair grouping. */
  lemma RemovePairForm(h: string, sep: char, cs: set<char>)
    requires |h| == 12 && sep in cs && Avoids(h, cs)
    ensures Remove(PairForm(h, sep), cs) == h
  {
    var p0, p1, p2, p3, p4, p5 := h[0..2], h[2..4], h[4..6], h[6..8], h[8..10], h[10..12];
    RemoveNone(p0, cs);
    var x2 := p0 + [sep] + p1;
    RemoveGrow(p0, sep, p1, p0, cs);
    var x3 := x2 + [sep] + p2;
    RemoveGrow(x2, sep, p2, p0 + p1, cs);
    var x4 := x3 + [sep] + p3;
    RemoveGrow(x3, sep, p3, p0 + p1 + p2, cs);
    var x5 := x4 + [sep] + p4;
    RemoveGrow(x4, sep, p4, p0 + p1 + p2 + p3, cs);
    RemoveGrow(x5, sep, p5, p0 + p1 + p2 + p3 + p4, cs);
    SixPairs(h);
  }

  /** One more separator and a piece without separators: the separators deleted so far, then the piece. */
  lemma RemoveGrow(x: string, sep: char, p: string, pre: string, cs: set<char>)
    requires sep in cs && Remove(x, cs) == pre && Avoids(p, cs)
    ensures Remove(x + [sep] + p, cs) == pre + p
  {
    RemoveNone(p, cs);
    RemoveAround(x, sep, p, cs);
  }

  /** Twelve characters are their six pairs in order. */
  lemma SixPairs(h: string)
    requires |h| == 12
    ensures h == h[0..2] + h[2..4] + h[4..6] + h[6..8] + h[8..10] + h[10..12]
  {
  }

  /** Deleting the dots undoes the Cisco grouping. */
  lemma RemoveDotForm(h: string, cs: set<char>)
    requires |h| == 12 && '.' in cs && Avoids(h, cs)
    ensures Remove(DotForm(h), cs) == h
  {
    RemoveNone(h[0..4], cs);
    RemoveNone(h[4..8], cs);
    RemoveNone(h[8..12], cs);
    RemoveAround(h[0..4], '.', h[4..8], cs);
    assert h[0..4] + "." + h[4..8] == h[0..4] + ['.'] + h[4..8];
    RemoveAround(h[0..4] + "." + h[4..8], '.', h[8..12], cs);
    assert DotForm(h) == h[0..4] + "." + h[4..8] + ['.'] + h[8..12];
    assert h[0..4] + h[4..8] + h[8..12] == h;
  }

  /** Every character of a pair form is the separator or one of the grouped characters. */
  lemma PairFormChars(h: string, sep: char)
    requires |h| == 12
    ensures |PairForm(h, sep)| == 17
    ensures forall i :: 0 <= i < 17 ==> PairForm(h, sep)[i] == sep || PairForm(h, sep)[i] in h
  {
    var r := PairForm(h, sep);
    forall i | 0 <= i < 17 ensures r[i] == sep || r[i] in h {
      if i < 2 { assert r[i] == h[i]; }
      else if 2 < i < 5 { assert r[i] == h[i - 1]; }
      else if 5 < i < 8 { assert r[i] == h[i - 2]; }
      else if 8 < i < 11 { assert r[i] == h[i - 3]; }
      else if 11 < i < 14 { assert r[i] == h[i - 4]; }
      else if 14 < i { assert r[i] == h[i - 5]; }
    }
  }

  /** Colon pairs of hex digits hold only hex digits and colons. */
  lemma ColonFormHex(h: string)
    requires |h| == 12 && AllHex(h)
    ensures |ColonForm(h)| == 17 && forall i :: 0 <= i < 17 ==> IsHexDigit(ColonForm(h)[i]) || ColonForm(h)[i] == ':'
  {
    PairFormChars(h, ':');
  }

  /** The colon form has 17 characters, ':' at positions 2, 5, 8, 11, 14, and the digits in order elsewhere. */
  lemma ColonFormShape(h: string)
    requires |h| == 12
    ensures var r := ColonForm(h);
      |r| == 17
      && (forall i :: 0 <= i < 17 && i % 3 == 2 ==> r[i] == ':')
      && (forall i :: 0 <= i < 17 && i % 3 != 2 ==> r[i] == h[i - i / 3])
  {
  }

  /** Colon-grouping lower-case hex digits gives lower-case hex digits and colons only. */
  lemma ColonFormChars(g: string)
    requires |g| == 12 && AllHex(g) && IsLowered(g)
    ensures var r := ColonForm(g);
      NoSpace(r) && IsLowered(r) && forall i :: 0 <= i < |r| ==> IsHexDigit(r[i]) || r[i] == ':'
  {
    ColonFormShape(g);
  }

  /** Lower-casing does not create or destroy MAC separators. */
  lemma {:induction false} LowerRemoveCommute(s: string, cs: set<char>)
    requires forall c :: c in cs ==> !('A' <= c <= 'Z') && !('a' <= c <= 'z')
    ensures Remove(Lower(s), cs) == Lower(Remove(s, cs))
  {
    if s != [] {
      LowerRemoveCommute(s[1..], cs);
      assert Lower(s)[1..] == Lower(s[1..]);
      LowerAppend(if s[0] in cs then [] else [s[0]], Remove(s[1..], cs));
    }
  }

  lemma LowerHex(h: string)
    requires AllHex(h)
    ensures AllHex(Lower(h)) && Avoids(Lower(h), MacSeparators)
  {
  }

  lemma HexAvoidsSeparators(h: string)
    requires AllHex(h)
    ensures Avoids(h, MacSeparators) && Avoids(h, {'/'}) && NoSpace(h)
  {
  }

  lemma {:induction false} LowerIdempotent(s: string)
    ensures Lower(Lower(s)) == Lower(s)
  {
  }

  /** Every character is a lower-case letter's image: Lower leaves it alone. */
  predicate IsLowered(s: string)
  {
    forall i :: 0 <= i < |s| ==> !('A' <= s[i] <= 'Z')
  }

  lemma LowerIsLowered(s: string)
    ensures IsLowered(Lower(s))
  {
  }

  lemma {:induction false} LoweredFixed(s: string)
    requires IsLowered(s)
    ensures Lower(s) == s
  {
  }
}
