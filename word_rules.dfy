/**
 * Word rules of the game (Program.cs, NormalizeWord, GetFirstLetter,
 * GetLastLetter): normalising a raw line to a playable word, and the leading
 * and trailing "unit" of a word, where the six Hungarian digraphs count as
 * one letter.
 */
module WordRules {
  import opened Wrappers

  // ---------------------------------------------------------------------
  // Characters
  // ---------------------------------------------------------------------

  /** The characters .NET's Char.IsWhiteSpace accepts, which String.Trim removes. */
  predicate IsWhiteSpace(c: char): (b: bool)
    ensures (c == '\U{20}' || c == '\U{9}' || c == '\U{A}' || c == '\U{D}' || c == '\U{A0}') ==> b
    ensures b ==> c != '-' && !('0' <= c <= '9') && !('a' <= c <= 'z') && !('A' <= c <= 'Z')
  {
    || ('\t' <= c <= '\r')
    || c == ' ' || c == '\U{85}' || c == '\U{A0}' || c == '\U{1680}'
    || ('\U{2000}' <= c <= '\U{200A}')
    || c == '\U{2028}' || c == '\U{2029}' || c == '\U{202F}' || c == '\U{205F}'
    || c == '\U{3000}'
  }

  /** The accented lower-case letters of the pattern's class: á é í ó ö ő ú ü ű. */
  predicate IsLowerAccent(c: char) {
    || c == '\U{E1}' || c == '\U{E9}' || c == '\U{ED}' || c == '\U{F3}' || c == '\U{F6}'
    || c == '\U{151}' || c == '\U{FA}' || c == '\U{FC}' || c == '\U{171}'
  }

  /** Their upper-case forms: Á É Í Ó Ö Ő Ú Ü Ű. */
  predicate IsUpperAccent(c: char) {
    || c == '\U{C1}' || c == '\U{C9}' || c == '\U{CD}' || c == '\U{D3}' || c == '\U{D6}'
    || c == '\U{150}' || c == '\U{DA}' || c == '\U{DC}' || c == '\U{170}'
  }

  /** A lower-case letter of the allowed alphabet. */
  predicate IsLowerLetter(c: char) {
    ('a' <= c <= 'z') || IsLowerAccent(c)
  }

  /** The character class `[a-zA-ZáéíóöőúüűÁÉÍÓÖŐÚÜŰ]` of NormalizeWord's pattern. */
  predicate IsLetter(c: char): (b: bool)
    ensures b ==> !IsWhiteSpace(c) && c != '-'
  {
    IsLowerLetter(c) || ('A' <= c <= 'Z') || IsUpperAccent(c)
  }

  /** ToLowerInvariant on one character, for the letters of the class; other characters are kept. */
  function LowerChar(c: char): (d: char)
    ensures IsLetter(c) ==> IsLowerLetter(d)
    ensures !IsLetter(c) ==> d == c
    ensures IsLowerLetter(c) ==> d == c
    ensures ('A' <= c <= 'Z' || IsUpperAccent(c)) ==>
              d as int == c as int + (if c == '\U{150}' || c == '\U{170}' then 1 else 32)
  {
    if 'A' <= c <= 'Z' then (c as int + 32) as char
    else if c == '\U{C1}' then '\U{E1}'
    else if c == '\U{C9}' then '\U{E9}'
    else if c == '\U{CD}' then '\U{ED}'
    else if c == '\U{D3}' then '\U{F3}'
    else if c == '\U{D6}' then '\U{F6}'
    else if c == '\U{150}' then '\U{151}'
    else if c == '\U{DA}' then '\U{FA}'
    else if c == '\U{DC}' then '\U{FC}'
    else if c == '\U{170}' then '\U{171}'
    else c
  }

  /** Letters and the hyphen are never white space, and the hyphen is no letter. */
  lemma LetterIsNotSpace(c: char)
    ensures IsLetter(c) ==> !IsWhiteSpace(c)
    ensures c == '-' ==> !IsWhiteSpace(c) && !IsLetter(c)
  {
  }

  // ---------------------------------------------------------------------
  // String helpers: Trim and ToLowerInvariant
  // ---------------------------------------------------------------------

  /** ToLowerInvariant, character by character. */
  function Lower(s: string): (t: string)
    ensures |t| == |s|
    ensures forall i :: 0 <= i < |s| ==> t[i] == LowerChar(s[i])
  {
    seq(|s|, i requires 0 <= i < |s| => LowerChar(s[i]))
  }

  /** Index of the first character at or after `i` that is not white space, or |s|. */
  function SkipSpace(s: string, i: nat): (k: nat)
    requires i <= |s|
    ensures i <= k <= |s|
    ensures forall j :: i <= j < k ==> IsWhiteSpace(s[j])
    ensures k < |s| ==> !IsWhiteSpace(s[k])
    decreases |s| - i
  {
    if i < |s| && IsWhiteSpace(s[i]) then SkipSpace(s, i + 1) else i
  }

  /** One past the last character in `s[lo..k]` that is not white space, or `lo`. */
  function SkipSpaceBack(s: string, lo: nat, k: nat): (h: nat)
    requires lo <= k <= |s|
    ensures lo <= h <= k
    ensures forall j :: h <= j < k ==> IsWhiteSpace(s[j])
    ensures h > lo ==> !IsWhiteSpace(s[h - 1])
    decreases k
  {
    if k > lo && IsWhiteSpace(s[k - 1]) then SkipSpaceBack(s, lo, k - 1) else k
  }

  /** Where String.Trim's result starts in `s`. */
  function TrimStart(s: string): (lo: nat)
    ensures lo <= |s|
    ensures forall j :: 0 <= j < lo ==> IsWhiteSpace(s[j])
    ensures lo < |s| ==> !IsWhiteSpace(s[lo])
  {
    SkipSpace(s, 0)
  }

  /** Where String.Trim's result ends in `s`. */
  function TrimEnd(s: string): (hi: nat)
    ensures TrimStart(s) <= hi <= |s|
    ensures forall j :: hi <= j < |s| ==> IsWhiteSpace(s[j])
    ensures hi > TrimStart(s) ==> !IsWhiteSpace(s[hi - 1])
  {
    SkipSpaceBack(s, TrimStart(s), |s|)
  }

  /** String.Trim: the input without its leading and trailing white space. */
  function Trim(s: string): (t: string)
    ensures t == s[TrimStart(s)..TrimEnd(s)]
    ensures forall j :: 0 <= j < TrimStart(s) ==> IsWhiteSpace(s[j])
    ensures forall j :: TrimEnd(s) <= j < |s| ==> IsWhiteSpace(s[j])
    ensures |t| > 0 ==> !IsWhiteSpace(t[0]) && !IsWhiteSpace(t[|t| - 1])
  {
    var lo, hi := TrimStart(s), TrimEnd(s);
    var t := s[lo..hi];
    assert |t| > 0 ==> t[0] == s[lo] && t[|t| - 1] == s[hi - 1];
    t
  }

  /** String.IsNullOrWhiteSpace for a non-null string: exactly the strings that trim to nothing. */
  predicate IsBlank(s: string): (b: bool)
    ensures b <==> Trim(s) == ""
  {
    forall i :: 0 <= i < |s| ==> IsWhiteSpace(s[i])
  }

  // ---------------------------------------------------------------------
  // The pattern  L+(?:-L+)?  and its leftmost match
  // ---------------------------------------------------------------------

  /** Index of the first letter at or after `i`, or |t| when there is none. */
  function FindLetter(t: string, i: nat): (k: nat)
    requires i <= |t|
    ensures i <= k <= |t|
    ensures forall j :: i <= j < k ==> !IsLetter(t[j])
    ensures k < |t| ==> IsLetter(t[k])
    decreases |t| - i
  {
    if i == |t| || IsLetter(t[i]) then i else FindLetter(t, i + 1)
  }

  /** End of the maximal run of letters that starts at `i` (the greedy `L+`). */
  function RunEnd(t: string, i: nat): (k: nat)
    requires i <= |t|
    ensures i <= k <= |t|
    ensures forall j :: i <= j < k ==> IsLetter(t[j])
    ensures k < |t| ==> !IsLetter(t[k])
    decreases |t| - i
  {
    if i < |t| && IsLetter(t[i]) then RunEnd(t, i + 1) else i
  }

  /** End of the match that starts at the letter `t[i]`: one run, then optionally `-` and a second run. */
  function MatchEnd(t: string, i: nat): (k: nat)
    requires i < |t| && IsLetter(t[i])
    ensures i < k <= |t|
  {
    var j := RunEnd(t, i);
    if j + 1 < |t| && t[j] == '-' && IsLetter(t[j + 1]) then RunEnd(t, j + 1) else j
  }

  /** `t[i..k]` is letters, or two runs of letters joined by one hyphen. */
  ghost predicate IsMatchShape(t: string, i: nat, k: nat) {
    && i < k <= |t|
    && IsLetter(t[i]) && IsLetter(t[k - 1])
    && (forall j :: i <= j < k ==> IsLetter(t[j]) || t[j] == '-')
    && (forall j, j' :: i <= j < j' < k && t[j] == '-' ==> t[j'] != '-')
  }

  /**
   * The declarative reading of a leftmost, greedy match of `L+(?:-L+)?` in
   * `t` spanning `t[i..k]`: no letter before `i`, the right shape, and
   * neither run can be extended.
   */
  ghost predicate IsLeftmostMatch(t: string, i: nat, k: nat) {
    && IsMatchShape(t, i, k)
    && (forall j :: 0 <= j < i ==> !IsLetter(t[j]))
    && (k < |t| ==> !IsLetter(t[k]))
    && ((forall j :: i <= j < k ==> t[j] != '-') ==>
          !(k + 1 < |t| && t[k] == '-' && IsLetter(t[k + 1])))
  }

  lemma MatchEndFacts(t: string, i: nat)
    requires i < |t| && IsLetter(t[i])
    requires forall j :: 0 <= j < i ==> !IsLetter(t[j])
    ensures IsLeftmostMatch(t, i, MatchEnd(t, i))
  {
    var j := RunEnd(t, i);
    LetterIsNotSpace('-');
    if j + 1 < |t| && t[j] == '-' && IsLetter(t[j + 1]) {
      var k := RunEnd(t, j + 1);
      assert forall m :: i <= m < k && t[m] == '-' ==> m == j;
      assert !(forall m :: i <= m < k ==> t[m] != '-');
    } else {
      assert forall m :: i <= m < j ==> t[m] != '-';
    }
  }

  /** The pattern's Match(...).Value, or None when the match fails. */
  function RegexMatch(t: string): (r: Option<string>)
    ensures r.None? <==> forall j :: 0 <= j < |t| ==> !IsLetter(t[j])
    ensures r.Some? ==> exists i: nat, k: nat :: IsLeftmostMatch(t, i, k) && r.value == t[i..k]
  {
    var i := FindLetter(t, 0);
    if i == |t| then None
    else
      var k := MatchEnd(t, i);
      MatchEndFacts(t, i);
      Some(t[i..k])
  }

  // ---------------------------------------------------------------------
  // NormalizeWord
  // ---------------------------------------------------------------------

  /**
   * The shape of a normalised word: non-empty, lower-case letters and at
   * most one hyphen, which is neither first nor last.
   */
  predicate IsNormalWord(w: string) {
    && |w| > 0
    && (forall i :: 0 <= i < |w| ==> IsLowerLetter(w[i]) || w[i] == '-')
    && w[0] != '-' && w[|w| - 1] != '-'
    && (forall i, j :: 0 <= i < j < |w| && w[i] == '-' ==> w[j] != '-')
  }

  /** `w` occurs in `s` as a contiguous piece. */
  ghost predicate IsSubstring(w: string, s: string) {
    exists a :: 0 <= a <= |s| && w <= s[a..]
  }

  /**
   * NormalizeWord: None for a blank line, otherwise the leftmost match of the
   * pattern in the trimmed, lower-cased line (None if there is no match).
   */
  function NormalizeWord(input: string): (r: Option<string>)
    ensures r.None? <==> forall i :: 0 <= i < |input| ==> !IsLetter(input[i])
    ensures r.Some? ==> IsNormalWord(r.value)
  {
    if IsBlank(input) then
      BlankHasNoLetter(input);
      None
    else
      var r := RegexMatch(Lower(Trim(input)));
      NormalizeFacts(input, r);
      r
  }

  /**
   * A normalised result is a piece of the lower-cased line, and it is the
   * leftmost greedy match of the pattern in the trimmed, lower-cased line.
   */
  lemma NormalizeIsLeftmostMatch(input: string)
    requires NormalizeWord(input).Some?
    ensures IsSubstring(NormalizeWord(input).value, Lower(input))
    ensures exists i: nat, k: nat :: IsLeftmostMatch(Lower(Trim(input)), i, k)
                                  && NormalizeWord(input).value == Lower(Trim(input))[i..k]
  {
    NormalizeFacts(input, RegexMatch(Lower(Trim(input))));
  }

  lemma BlankHasNoLetter(s: string)
    requires IsBlank(s)
    ensures forall i :: 0 <= i < |s| ==> !IsLetter(s[i])
  {
    forall i | 0 <= i < |s| ensures !IsLetter(s[i]) { LetterIsNotSpace(s[i]); }
  }

  /** Lower-casing turns letters into letters and leaves everything else alone. */
  lemma LowerKeepsLetters(c: char)
    ensures IsLetter(LowerChar(c)) <==> IsLetter(c)
  {
  }

  /** Trimming and lower-casing keep exactly the letters the line has, in place. */
  lemma TrimLowerLetters(input: string)
    ensures forall j :: 0 <= j < |input| && IsLetter(input[j]) ==>
      TrimStart(input) <= j < TrimEnd(input) && IsLetter(Lower(Trim(input))[j - TrimStart(input)])
    ensures forall j :: 0 <= j < |Trim(input)| ==>
      (IsLetter(Lower(Trim(input))[j]) <==> IsLetter(input[TrimStart(input) + j]))
  {
    LettersInsideTrim(input);
    LowerSliceLetters(input, TrimStart(input), TrimEnd(input));
  }

  /** Every letter of the line lies between the trimmed ends. */
  lemma LettersInsideTrim(input: string)
    ensures forall j :: 0 <= j < |input| && IsLetter(input[j]) ==> TrimStart(input) <= j < TrimEnd(input)
  {
    forall j | 0 <= j < |input| && IsLetter(input[j])
      ensures TrimStart(input) <= j < TrimEnd(input)
    {
      LetterIsNotSpace(input[j]);
    }
  }

  /** Lower-casing a piece of a line keeps its letters, and only those, in place. */
  lemma LowerSliceLetters(s: string, lo: nat, hi: nat)
    requires lo <= hi <= |s|
    ensures forall j :: 0 <= j < hi - lo ==> (IsLetter(Lower(s[lo..hi])[j]) <==> IsLetter(s[lo + j]))
  {
    var t := s[lo..hi];
    forall j | 0 <= j < hi - lo
      ensures IsLetter(Lower(t)[j]) <==> IsLetter(s[lo + j])
    {
      assert t[j] == s[lo + j];
      LowerKeepsLetters(t[j]);
    }
  }

  lemma NormalizeFacts(input: string, r: Option<string>)
    requires r == RegexMatch(Lower(Trim(input)))
    ensures r.None? <==> forall i :: 0 <= i < |input| ==> !IsLetter(input[i])
    ensures r.Some? ==> IsNormalWord(r.value) && IsSubstring(r.value, Lower(input))
  {
    TrimLowerLetters(input);
    if r.Some? {
      MatchIsNormalWord(input, r.value);
    }
  }

  lemma MatchIsNormalWord(input: string, w: string)
    requires RegexMatch(Lower(Trim(input))) == Some(w)
    ensures IsNormalWord(w) && IsSubstring(w, Lower(input))
  {
    var t := Lower(Trim(input));
    var i: nat, k: nat :| IsLeftmostMatch(t, i, k) && w == t[i..k];
    LowerShapeIsNormal(Trim(input), i, k);
    SliceIsSubstring(input, i, k);
  }

  lemma SliceIsSubstring(input: string, i: nat, k: nat)
    requires i <= k <= |Trim(input)|
    ensures IsSubstring(Lower(Trim(input))[i..k], Lower(input))
  {
    var lo, hi := TrimStart(input), TrimEnd(input);
    var u := Lower(input);
    var t := Lower(Trim(input));
    LowerTrimIsSlice(input);
    SliceInSuffix(u, lo, hi, i, k);
    assert t[i..k] <= u[lo + i..];
  }

  /** A piece of a piece of `u` is a prefix of a suffix of `u`. */
  lemma SliceInSuffix(u: string, lo: nat, hi: nat, i: nat, k: nat)
    requires lo <= hi <= |u| && i <= k <= hi - lo
    ensures u[lo..hi][i..k] <= u[lo + i..]
  {
    var a, b := u[lo..hi][i..k], u[lo + i..];
    assert forall m :: 0 <= m < |a| ==> a[m] == u[lo + i + m] == b[m];
    assert a == b[..|a|];
  }

  /** A match in a lower-cased string has the shape of a normalised word. */
  lemma LowerShapeIsNormal(s: string, i: nat, k: nat)
    requires IsMatchShape(Lower(s), i, k)
    ensures IsNormalWord(Lower(s)[i..k])
  {
    var t := Lower(s);
    var w := t[i..k];
    forall m | 0 <= m < |w| ensures IsLowerLetter(w[m]) || w[m] == '-' {
      assert w[m] == t[i + m] == LowerChar(s[i + m]);
    }
  }

  /** Lower-casing the trimmed line equals cutting the lower-cased line. */
  lemma LowerTrimIsSlice(input: string)
    ensures Lower(Trim(input)) == Lower(input)[TrimStart(input)..TrimEnd(input)]
  {
    LowerSlice(input, TrimStart(input), TrimEnd(input));
  }

  /** Lower-casing commutes with cutting out a piece. */
  lemma LowerSlice(s: string, lo: nat, hi: nat)
    requires lo <= hi <= |s|
    ensures Lower(s[lo..hi]) == Lower(s)[lo..hi]
  {
    var a, b := Lower(s[lo..hi]), Lower(s)[lo..hi];
    forall m | 0 <= m < |a| ensures a[m] == b[m] {
      assert s[lo..hi][m] == s[lo + m];
    }
  }

  /** In a normalised word the first letter run ends at its hyphen, if any. */
  lemma NormalWordFirstRun(w: string)
    requires IsNormalWord(w)
    ensures RunEnd(w, 0) == |w| || (w[RunEnd(w, 0)] == '-' && RunEnd(w, 0) + 1 < |w|)
  {
    var j := RunEnd(w, 0);
    if j < |w| {
      assert !IsLetter(w[j]);
      assert IsLowerLetter(w[j]) || w[j] == '-';
    }
  }

  /** In a normalised word the letter run after the hyphen reaches the end. */
  lemma NormalWordSecondRun(w: string, j: nat)
    requires IsNormalWord(w) && j < |w| && w[j] == '-'
    ensures j + 1 < |w| && IsLetter(w[j + 1]) && RunEnd(w, j + 1) == |w|
  {
    assert w[j + 1] != '-';
  }

  /** A normalised word normalises to itself. */
  lemma NormalizeNormalWord(w: string)
    requires IsNormalWord(w)
    ensures NormalizeWord(w) == Some(w)
  {
    LetterIsNotSpace(w[0]);
    LetterIsNotSpace(w[|w| - 1]);
    assert TrimStart(w) == 0;
    assert TrimEnd(w) == |w|;
    assert Trim(w) == w;
    assert Lower(w) == w;
    assert FindLetter(w, 0) == 0;
    NormalWordFirstRun(w);
    var j := RunEnd(w, 0);
    if j < |w| {
      NormalWordSecondRun(w, j);
    }
    assert MatchEnd(w, 0) == |w|;
  }

  /** NormalizeWord is idempotent. */
  lemma NormalizeIdempotent(input: string)
    requires NormalizeWord(input).Some?
    ensures NormalizeWord(NormalizeWord(input).value) == NormalizeWord(input)
  {
    NormalizeNormalWord(NormalizeWord(input).value);
  }

  // ---------------------------------------------------------------------
  // Leading and trailing units
  // ---------------------------------------------------------------------

  /** The digraph list of GetFirstLetter and GetLastLetter, in the order they are tried. */
  const Digraphs: seq<string> := ["cs", "sz", "ny", "gy", "ty", "ly"]

  /** One of the listed digraphs. */
  predicate IsDigraph(s: string) {
    s in Digraphs
  }

  /** The digraphs are exactly cs, sz, ny, gy, ty and ly. */
  lemma DigraphsListed(s: string)
    ensures IsDigraph(s) <==> s == "cs" || s == "sz" || s == "ny" || s == "gy" || s == "ty" || s == "ly"
  {
  }

  /** String.StartsWith read ordinally: `d` matches the first |d| characters of `w` one by one. */
  predicate StartsWith(w: string, d: string): (b: bool)
    ensures b <==> |d| <= |w| && forall i :: 0 <= i < |d| ==> w[i] == d[i]
  {
    |d| <= |w| && w[..|d|] == d
  }

  /** String.EndsWith read ordinally: `d` matches the last |d| characters of `w` one by one. */
  predicate EndsWith(w: string, d: string): (b: bool)
    ensures b <==> |d| <= |w| && forall i :: 0 <= i < |d| ==> w[|w| - |d| + i] == d[i]
  {
    |d| <= |w| && w[|w| - |d|..] == d
  }

  /** The leading unit: the first two letters when they form a digraph, else the first character. */
  function LeadingUnit(w: string): (u: string)
    requires |w| > 0
    ensures 1 <= |u| <= 2 && StartsWith(w, u)
    ensures |u| == 2 ==> IsDigraph(u)
  {
    if |w| >= 2 && IsDigraph(w[..2]) then w[..2] else w[..1]
  }

  /** The trailing unit: the last two letters when they form a digraph, else the last character. */
  function TrailingUnit(w: string): (u: string)
    requires |w| > 0
    ensures 1 <= |u| <= 2 && EndsWith(w, u)
    ensures |u| == 2 ==> IsDigraph(u)
  {
    if |w| >= 2 && IsDigraph(w[|w| - 2..]) then w[|w| - 2..] else w[|w| - 1..]
  }

  /** A unit has two letters exactly when the word starts, or ends, with a digraph. */
  lemma UnitIsDigraph(w: string)
    requires |w| > 0
    ensures |LeadingUnit(w)| == 2 <==> exists d :: IsDigraph(d) && StartsWith(w, d)
    ensures |TrailingUnit(w)| == 2 <==> exists d :: IsDigraph(d) && EndsWith(w, d)
  {
    var u, v := LeadingUnit(w), TrailingUnit(w);
    if |u| == 2 {
      assert IsDigraph(u) && StartsWith(w, u);
    }
    if |v| == 2 {
      assert IsDigraph(v) && EndsWith(w, v);
    }
    if exists d :: IsDigraph(d) && StartsWith(w, d) {
      var d :| IsDigraph(d) && StartsWith(w, d);
      DigraphLeads(w, d);
      DigraphsListed(d);
    }
    if exists d :: IsDigraph(d) && EndsWith(w, d) {
      var d :| IsDigraph(d) && EndsWith(w, d);
      DigraphTrails(w, d);
      DigraphsListed(d);
    }
  }

  /**
   * No word starts, or ends, with two different digraphs, so the order in
   * which the list is tried cannot change the result.
   */
  lemma DigraphMatchUnique(w: string, d: string, e: string)
    requires IsDigraph(d) && IsDigraph(e)
    ensures StartsWith(w, d) && StartsWith(w, e) ==> d == e
    ensures EndsWith(w, d) && EndsWith(w, e) ==> d == e
  {
  }

  /** A word that is exactly a digraph, or a single character, is its own leading and trailing unit. */
  lemma ShortWordUnits(w: string)
    requires IsDigraph(w) || |w| == 1
    ensures LeadingUnit(w) == w && TrailingUnit(w) == w
  {
    DigraphsListed(w);
    assert w[..|w|] == w && w[|w| - |w|..] == w;
  }

  /** A word beginning with a digraph has that digraph, not its first letter, as leading unit. */
  lemma DigraphLeads(w: string, d: string)
    requires IsDigraph(d) && StartsWith(w, d)
    ensures LeadingUnit(w) == d
  {
  }

  /** A word ending with a digraph has that digraph, not its last letter, as trailing unit. */
  lemma DigraphTrails(w: string, d: string)
    requires IsDigraph(d) && EndsWith(w, d)
    ensures TrailingUnit(w) == d
  {
  }

  /** A listed digraph the word starts with is its leading unit. */
  lemma ListedDigraphLeads(w: string, i: nat)
    requires i < |Digraphs| && StartsWith(w, Digraphs[i])
    ensures LeadingUnit(w) == Digraphs[i]
  {
    DigraphsListed(Digraphs[i]);
    DigraphLeads(w, Digraphs[i]);
  }

  /** A listed digraph the word ends with is its trailing unit. */
  lemma ListedDigraphTrails(w: string, i: nat)
    requires i < |Digraphs| && EndsWith(w, Digraphs[i])
    ensures TrailingUnit(w) == Digraphs[i]
  {
    DigraphsListed(Digraphs[i]);
    DigraphTrails(w, Digraphs[i]);
  }

  /** A word that starts with none of the listed digraphs has its first character as leading unit. */
  lemma NoListedDigraphLeads(w: string)
    requires |w| > 0
    requires forall j :: 0 <= j < |Digraphs| ==> !StartsWith(w, Digraphs[j])
    ensures LeadingUnit(w) == [w[0]]
  {
    if |w| >= 2 {
      forall j | 0 <= j < |Digraphs| ensures Digraphs[j] != w[..2] {
        assert |Digraphs[j]| == 2;
      }
      DigraphsListed(w[..2]);
    }
    assert w[..1] == [w[0]];
  }

  /** A word that ends with none of the listed digraphs has its last character as trailing unit. */
  lemma NoListedDigraphTrails(w: string)
    requires |w| > 0
    requires forall j :: 0 <= j < |Digraphs| ==> !EndsWith(w, Digraphs[j])
    ensures TrailingUnit(w) == [w[|w| - 1]]
  {
    if |w| >= 2 {
      forall j | 0 <= j < |Digraphs| ensures Digraphs[j] != w[|w| - 2..] {
        assert |Digraphs[j]| == 2;
      }
      DigraphsListed(w[|w| - 2..]);
    }
    assert w[|w| - 1..] == [w[|w| - 1]];
  }

  /**
   * GetFirstLetter: tries the digraphs in list order and returns the first
   * one the word starts with, else the word's first character.
   */
  method GetFirstLetter(word: string) returns (u: string)
    requires |word| > 0
    ensures u == LeadingUnit(word)
  {
    for i := 0 to |Digraphs|
      invariant forall j :: 0 <= j < i ==> !StartsWith(word, Digraphs[j])
    {
      if StartsWith(word, Digraphs[i]) {
        ListedDigraphLeads(word, i);
        return Digraphs[i];
      }
    }
    NoListedDigraphLeads(word);
    u := [word[0]];
  }

  /**
   * GetLastLetter: tries the digraphs in list order and returns the first
   * one the word ends with, else the word's last character.
   */
  method GetLastLetter(word: string) returns (u: string)
    requires |word| > 0
    ensures u == TrailingUnit(word)
  {
    for i := 0 to |Digraphs|
      invariant forall j :: 0 <= j < i ==> !EndsWith(word, Digraphs[j])
    {
      if EndsWith(word, Digraphs[i]) {
        ListedDigraphTrails(word, i);
        return Digraphs[i];
      }
    }
    NoListedDigraphTrails(word);
    u := [word[|word| - 1]];
  }
}
