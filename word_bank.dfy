/**
 * The word bank (Program.cs, LoadWordBank and ComputerChoose): the
 * normalise-and-filter pipeline that builds it from the dictionary's lines,
 * and the computer's choice of an unused word with the required leading unit.
 */
module WordBank {
  import opened Wrappers
  import opened WordRules

  /** Every word of the bank is a normalised word, as the loading pipeline guarantees. */
  predicate IsWordBank(bank: seq<string>) {
    forall w | w in bank :: IsNormalWord(w)
  }

  /** No word is empty; GetFirstLetter needs no more of the bank's words. */
  predicate NonEmptyWords(words: seq<string>) {
    forall w | w in words :: |w| > 0
  }

  /**
   * The pipeline of LoadWordBank: normalise every line and keep, in order,
   * the results that are not null or empty.
   */
  function LoadWords(lines: seq<string>): (bank: seq<string>)
    ensures IsWordBank(bank) && |bank| <= |lines|
    ensures forall w :: w in bank <==> exists l :: l in lines && NormalizeWord(l) == Some(w)
  {
    if lines == [] then []
    else
      var n := NormalizeWord(lines[0]);
      var rest := LoadWords(lines[1..]);
      LoadedFrom(lines, rest);
      if n.Some? && n.value != "" then [n.value] + rest else rest
  }

  /** The words loaded from a non-empty list: the first line's word, if any, and those loaded from the rest. */
  lemma LoadedFrom(lines: seq<string>, rest: seq<string>)
    requires lines != []
    requires forall w :: w in rest <==> exists l :: l in lines[1..] && NormalizeWord(l) == Some(w)
    ensures var n := NormalizeWord(lines[0]);
      forall w :: w in (if n.Some? && n.value != "" then [n.value] + rest else rest) <==>
        exists l :: l in lines && NormalizeWord(l) == Some(w)
  {
    var n := NormalizeWord(lines[0]);
    var bank := if n.Some? && n.value != "" then [n.value] + rest else rest;
    forall w ensures w in bank <==> exists l :: l in lines && NormalizeWord(l) == Some(w) {
      if w in rest {
        var l :| l in lines[1..] && NormalizeWord(l) == Some(w);
        assert l in lines;
      } else if n == Some(w) {
        assert lines[0] in lines;
      }
      if exists l :: l in lines && NormalizeWord(l) == Some(w) {
        var l :| l in lines && NormalizeWord(l) == Some(w);
        if l != lines[0] {
          assert l in lines[1..];
        }
      }
    }
  }

  /** Loading an already loaded bank changes nothing: its words are fixed points of NormalizeWord. */
  lemma {:induction false} LoadWordsIdempotent(lines: seq<string>)
    ensures LoadWords(LoadWords(lines)) == LoadWords(lines)
  {
    if lines != [] {
      LoadWordsIdempotent(lines[1..]);
      LoadWordsOfBank(LoadWords(lines));
    }
  }

  /** A bank of normalised words loads to itself. */
  lemma {:induction false} LoadWordsOfBank(bank: seq<string>)
    requires IsWordBank(bank)
    ensures LoadWords(bank) == bank
  {
    if bank != [] {
      var w, rest := bank[0], bank[1..];
      assert w in bank;
      NormalizeNormalWord(w);
      assert forall v | v in rest :: v in bank;
      LoadWordsOfBank(rest);
      assert NormalizeWord(bank[0]) == Some(w) && w != "";
      assert LoadWords(bank) == [w] + LoadWords(rest);
      HeadAndTail(bank);
    }
  }

  lemma HeadAndTail(words: seq<string>)
    requires words != []
    ensures words == [words[0]] + words[1..]
  {
  }

  /** The bank words LINQ's first filter keeps: those not played yet, in bank order. */
  function Unused(words: seq<string>, used: set<string>): (r: seq<string>)
    ensures |r| <= |words|
    ensures forall w :: w in r <==> w in words && w !in used
  {
    if words == [] then []
    else
      assert forall w :: w in words <==> w == words[0] || w in words[1..];
      (if words[0] in used then [] else [words[0]]) + Unused(words[1..], used)
  }

  /** The words LINQ's second filter keeps: those whose leading unit is `lead`, in order. */
  function StartingWith(words: seq<string>, lead: string): (r: seq<string>)
    requires NonEmptyWords(words)
    ensures |r| <= |words|
    ensures forall w :: w in r <==> w in words && LeadingUnit(w) == lead
  {
    if words == [] then []
    else
      assert forall w :: w in words <==> w == words[0] || w in words[1..];
      (if LeadingUnit(words[0]) == lead then [words[0]] else []) + StartingWith(words[1..], lead)
  }

  /** A word the computer may play: unused, and with leading unit `startLetter` unless that is empty. */
  predicate Eligible(w: string, used: set<string>, startLetter: string): (b: bool)
    requires |w| > 0
    ensures b ==> w !in used
    ensures b && startLetter != "" ==> StartsWith(w, startLetter)
  {
    w !in used && (startLetter != "" ==> LeadingUnit(w) == startLetter)
  }

  /** The candidate list ComputerChoose draws from. */
  function Candidates(bank: seq<string>, used: set<string>, startLetter: string): (r: seq<string>)
    requires NonEmptyWords(bank)
    ensures forall w :: w in r <==> w in bank && Eligible(w, used, startLetter)
  {
    var unused := Unused(bank, used);
    if startLetter == "" then unused else StartingWith(unused, startLetter)
  }

  /**
   * ComputerChoose: None when no bank word is eligible, else the candidate at
   * index `roll % |candidates|`; `roll` stands for rnd.Next's draw.
   */
  function ComputerChoose(bank: seq<string>, used: set<string>, startLetter: string, roll: nat): (r: Option<string>)
    requires NonEmptyWords(bank)
    ensures r.None? <==> forall w | w in bank :: !Eligible(w, used, startLetter)
    ensures r.Some? ==> r.value in bank && Eligible(r.value, used, startLetter)
  {
    var candidates := Candidates(bank, used, startLetter);
    if |candidates| == 0 then None
    else
      var w := candidates[roll % |candidates|];
      assert w in candidates;
      Some(w)
  }

  /** Every eligible word is the computer's choice for some draw. */
  lemma EveryEligibleWordCanBeChosen(bank: seq<string>, used: set<string>, startLetter: string, w: string)
    requires NonEmptyWords(bank) && w in bank && Eligible(w, used, startLetter)
    ensures exists roll: nat :: ComputerChoose(bank, used, startLetter, roll) == Some(w)
  {
    var candidates := Candidates(bank, used, startLetter);
    assert w in candidates;
    var k := IndexOf(candidates, w);
    ModOfSmall(k, |candidates|);
    assert ComputerChoose(bank, used, startLetter, k) == Some(candidates[k]);
  }

  lemma ModOfSmall(k: nat, n: nat)
    requires k < n
    ensures k % n == k
  {
  }

  /** A position at which `w` occurs in `words`. */
  lemma IndexOf(words: seq<string>, w: string) returns (k: nat)
    requires w in words
    ensures k < |words| && words[k] == w
  {
    k :| 0 <= k < |words| && words[k] == w;
  }
}
