/**
 * What both game modes share (Program.cs, TwoPlayerMode and SinglePlayerMode):
 * the verdict on one input line, how a session ends, and the invariants of
 * the chain of accepted words.
 */
module Turns {
  import opened Wrappers
  import opened WordRules

  /**
   * The verdict on one read: no input (the 10-second wait ran out), a
   * non-event (no word, or a word shorter than two characters), an illegal
   * word, or an accepted word.
   */
  datatype Verdict = NoInput | NonEvent | Illegal(word: string) | Accepted(word: string)

  /** How a session stands: still playing, or which terminal condition ended it. */
  datatype Outcome =
    | Playing
    | TimedOut(player: int)    // that player did not answer in time and loses
    | Eliminated(player: int)  // that player made a third illegal move in a row and loses
    | ComputerStuck            // the computer found no word: the human wins

  /** The chain rule: the first word is free; every later word starts with the unit the previous one ends with. */
  predicate Links(lastWord: Option<string>, w: string)
    requires |w| > 0 && (lastWord.Some? ==> |lastWord.value| > 0)
  {
    lastWord.Some? ==> LeadingUnit(w) == TrailingUnit(lastWord.value)
  }

  /** A word linked to a last word starts with that word's trailing unit. */
  lemma LinkedWordStartsWithUnit(lastWord: Option<string>, w: string)
    requires |w| > 0 && lastWord.Some? && |lastWord.value| > 0
    requires Links(lastWord, w)
    ensures StartsWith(w, TrailingUnit(lastWord.value))
  {
  }

  /** A line normalises to a word of at most one character, or to none: the game ignores it. */
  predicate IsNonEvent(line: string): (b: bool)
    ensures (forall i :: 0 <= i < |line| ==> !IsLetter(line[i])) ==> b
    ensures !b ==> NormalizeWord(line).Some? && IsNormalWord(NormalizeWord(line).value) && |NormalizeWord(line).value| >= 2
  {
    var w := NormalizeWord(line);
    w.None? || |w.value| < 2
  }

  /**
   * The checks both modes apply to one read: a non-event, or a
   * word that is illegal when it is missing from the bank, breaks the chain
   * or was already played, or else is accepted.
   */
  function Validate(input: Option<string>, lastWord: Option<string>, used: set<string>, bank: seq<string>): (v: Verdict)
    requires lastWord.Some? ==> |lastWord.value| > 0
    ensures v.NoInput? <==> input.None?
    ensures v.NonEvent? <==> input.Some? && IsNonEvent(input.value)
    ensures v.Illegal? || v.Accepted? ==>
              input.Some? && NormalizeWord(input.value) == Some(v.word) && |v.word| >= 2 && IsNormalWord(v.word)
    ensures v.Accepted? ==> v.word in bank && v.word !in used && Links(lastWord, v.word)
    ensures v.Illegal? ==> !(v.word in bank && v.word !in used && Links(lastWord, v.word))
  {
    match input
    case None => NoInput
    case Some(line) =>
      var w := NormalizeWord(line);
      if w.None? || |w.value| < 2 then NonEvent
      else if w.value !in bank || !Links(lastWord, w.value) || w.value in used then Illegal(w.value)
      else Accepted(w.value)
  }

  /** A line without any letter of the alphabet is a non-event, whatever the state. */
  lemma LetterFreeIsNonEvent(line: string)
    requires forall i :: 0 <= i < |line| ==> !IsLetter(line[i])
    ensures IsNonEvent(line)
  {
  }

  /** The words of a sequence, as a set. */
  function Elements(chain: seq<string>): (s: set<string>)
    ensures forall w :: w in s <==> w in chain
  {
    set w | w in chain
  }

  /** The last accepted word, None at the start. */
  function LastOf(chain: seq<string>): Option<string> {
    if chain == [] then None else Some(chain[|chain| - 1])
  }

  /**
   * The accepted words of a session in order: each in the bank and
   * normalised, no word twice, and every word linked to the one before it.
   */
  ghost predicate IsChain(chain: seq<string>, bank: seq<string>) {
    && (forall i :: 0 <= i < |chain| ==> chain[i] in bank && IsNormalWord(chain[i]))
    && (forall i, j :: 0 <= i < j < |chain| ==> chain[i] != chain[j])
    && (forall i :: 0 < i < |chain| ==> LeadingUnit(chain[i]) == TrailingUnit(chain[i - 1]))
  }

  /** The points of one side: the total length of the chain's words at positions of the given parity. */
  function Score(chain: seq<string>, parity: nat): (n: nat)
    ensures chain == [] ==> n == 0
  {
    if chain == [] then 0
    else
      var k := |chain| - 1;
      Score(chain[..k], parity) + (if k % 2 == parity then |chain[k]| else 0)
  }

  /** Parity flips with each move. */
  lemma ParityStep(n: nat)
    ensures (n + 1) % 2 == 1 - n % 2
  {
  }

  /** Appending a word scores its length for the side whose position it takes. */
  lemma ScoreAppend(chain: seq<string>, w: string, parity: nat)
    ensures Score(chain + [w], parity) == Score(chain, parity) + (if |chain| % 2 == parity then |w| else 0)
  {
    assert (chain + [w])[..|chain|] == chain;
  }

  /** The total length of a sequence of words. */
  function TotalLength(chain: seq<string>): nat {
    if chain == [] then 0 else TotalLength(chain[..|chain| - 1]) + |chain[|chain| - 1]|
  }

  /** The two sides' points add up to the letters of all accepted words. */
  lemma {:induction false} ScoresAddUp(chain: seq<string>)
    ensures Score(chain, 0) + Score(chain, 1) == TotalLength(chain)
  {
    if chain != [] {
      ScoresAddUp(chain[..|chain| - 1]);
    }
  }

  /**
   * The accepting move keeps the chain invariant: an unused bank word that is
   * normalised and linked to the last word extends the chain.
   */
  lemma ExtendChain(chain: seq<string>, bank: seq<string>, w: string)
    requires IsChain(chain, bank)
    requires w in bank && IsNormalWord(w) && w !in Elements(chain) && Links(LastOf(chain), w)
    ensures IsChain(chain + [w], bank)
    ensures Elements(chain + [w]) == Elements(chain) + {w}
    ensures LastOf(chain + [w]) == Some(w)
  {
    var c := chain + [w];
    forall i | 0 <= i < |c| ensures c[i] in bank && IsNormalWord(c[i]) {
      if i < |chain| { assert c[i] == chain[i]; }
    }
    forall i, j | 0 <= i < j < |c| ensures c[i] != c[j] {
      assert c[i] == chain[i];
      if j == |chain| {
        assert chain[i] in Elements(chain);
      } else {
        assert c[j] == chain[j];
      }
    }
    forall i | 0 < i < |c| ensures LeadingUnit(c[i]) == TrailingUnit(c[i - 1]) {
      assert c[i - 1] == chain[i - 1];
      if i < |chain| { assert c[i] == chain[i]; }
    }
  }

  /** An accepted verdict extends the chain of which `used` and `lastWord` are the summary. */
  lemma AcceptedExtendsChain(chain: seq<string>, bank: seq<string>, input: Option<string>)
    requires IsChain(chain, bank)
    requires Validate(input, LastOf(chain), Elements(chain), bank).Accepted?
    ensures IsChain(chain + [Validate(input, LastOf(chain), Elements(chain), bank).word], bank)
  {
    ExtendChain(chain, bank, Validate(input, LastOf(chain), Elements(chain), bank).word);
  }
}
