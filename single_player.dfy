/**
 * Single-player mode (Program.cs, SinglePlayerMode): the human against the
 * computer. `HumanTurn` and `ComputerTurn` are the two branches of one loop
 * iteration; `SinglePlayerGame` is the session whose fields the loop updates.
 */
module SinglePlayer {
  import opened Wrappers
  import opened WordRules
  import opened WordBank
  import opened Turns

  /**
   * The session's state. `humanFirst` records the answer to the start prompt
   * (it fixes which positions of `chain` are the human's); `chain` records the
   * accepted words in order.
   */
  datatype SinglePlayerState = SinglePlayerState(
    lastWord: Option<string>,
    usedWords: set<string>,
    playerPoints: int,
    computerPoints: int,
    playerErrors: int,
    playerTurn: bool,
    roundCounter: int,
    outcome: Outcome,
    chain: seq<string>,
    humanFirst: bool)

  /** The human is player 1 in the outcome, as in the statistics line. */
  const Human := 1

  /** The shape the turns need: a last word that has a last letter. */
  predicate WellShaped(s: SinglePlayerState) {
    s.lastWord.Some? ==> |s.lastWord.value| > 0
  }

  /**
   * The start prompt of SinglePlayerMode: the answer to "Kezdeni akarsz?" lets the human start when
   * it is "i" in either case or empty, after trimming.
   */
  function HumanStarts(answer: string): (b: bool)
    ensures b <==> (var t := Trim(answer); t == "" || t == "i" || t == "I")
  {
    var t := Lower(Trim(answer));
    assert |t| == 1 ==> (t[0] == 'i' <==> Trim(answer)[0] == 'i' || Trim(answer)[0] == 'I');
    t == "i" || t == ""
  }

  /** The state at the start of SinglePlayerMode: no word yet, no points or errors, the starting side from the prompt. */
  function Initial(humanFirst: bool): (s: SinglePlayerState)
    ensures WellShaped(s)
    ensures s.lastWord.None? && s.usedWords == {} && s.chain == [] && s.roundCounter == 0 && s.outcome == Playing
    ensures s.playerPoints == 0 && s.computerPoints == 0 && s.playerErrors == 0
    ensures s.playerTurn == humanFirst && s.humanFirst == humanFirst
  {
    SinglePlayerState(None, {}, 0, 0, 0, humanFirst, 0, Playing, [], humanFirst)
  }

  /**
   * The human branch of SinglePlayerMode's loop, given the verdict on the line read:
   * a timeout ends the session, a non-event changes nothing, an illegal word
   * charges an error (the third in a row hands the game to the computer),
   * an accepted word is recorded and scored and passes the turn.
   */
  function HumanAdvance(s: SinglePlayerState, v: Verdict): (r: SinglePlayerState)
    requires WellShaped(s) && (v.Accepted? ==> |v.word| > 0)
    ensures WellShaped(r)
  {
    match v
    case NoInput => s.(outcome := TimedOut(Human))
    case NonEvent => s
    case Illegal(_) =>
      var e := s.playerErrors + 1;
      s.(playerErrors := e, outcome := if e >= 3 then Eliminated(Human) else Playing)
    case Accepted(w) =>
      s.(playerErrors := 0,
         usedWords := s.usedWords + {w},
         lastWord := Some(w),
         playerPoints := s.playerPoints + |w|,
         playerTurn := false,
         roundCounter := s.roundCounter + 1,
         chain := s.chain + [w])
  }

  /** The human branch on the line read (None: the wait timed out). */
  function HumanTurn(s: SinglePlayerState, input: Option<string>, bank: seq<string>): (r: SinglePlayerState)
    requires WellShaped(s)
    ensures WellShaped(r)
  {
    HumanAdvance(s, Validate(input, s.lastWord, s.usedWords, bank))
  }

  /** The unit the computer's word must start with: none at the start, else the last word's trailing unit. */
  function StartLetter(lastWord: Option<string>): (u: string)
    requires lastWord.Some? ==> |lastWord.value| > 0
    ensures u == "" <==> lastWord.None?
  {
    if lastWord.None? then "" else TrailingUnit(lastWord.value)
  }

  /**
   * The computer branch of SinglePlayerMode's loop, given ComputerChoose's answer: no
   * word ends the session in the human's favour; a word is recorded and
   * scored for the computer as it is, with no rule applied to it again, and the turn passes.
   */
  function ComputerAdvance(s: SinglePlayerState, choice: Option<string>): (r: SinglePlayerState)
    requires WellShaped(s) && (choice.Some? ==> |choice.value| > 0)
    ensures WellShaped(r)
  {
    match choice
    case None => s.(outcome := ComputerStuck)
    case Some(w) =>
      s.(usedWords := s.usedWords + {w},
         lastWord := Some(w),
         computerPoints := s.computerPoints + |w|,
         playerTurn := true,
         roundCounter := s.roundCounter + 1,
         chain := s.chain + [w])
  }

  /** The computer branch with `roll` standing for the random draw. */
  function ComputerTurn(s: SinglePlayerState, roll: nat, bank: seq<string>): (r: SinglePlayerState)
    requires WellShaped(s) && NonEmptyWords(bank)
    ensures WellShaped(r)
  {
    ComputerAdvance(s, ComputerChoose(bank, s.usedWords, StartLetter(s.lastWord), roll))
  }

  /**
   * The loop of SinglePlayerMode: the human consumes a read, the computer a
   * draw, until the session ends or the reads or draws run out.
   */
  function Run(s: SinglePlayerState, inputs: seq<Option<string>>, rolls: seq<nat>, bank: seq<string>): (r: SinglePlayerState)
    requires WellShaped(s) && NonEmptyWords(bank)
    ensures WellShaped(r)
    decreases |inputs| + |rolls|
  {
    if s.outcome != Playing then s
    else if s.playerTurn then
      if inputs == [] then s else Run(HumanTurn(s, inputs[0], bank), inputs[1..], rolls, bank)
    else
      if rolls == [] then s else Run(ComputerTurn(s, rolls[0], bank), inputs, rolls[1..], bank)
  }

  /** The chain position parity of the human's words. */
  function HumanParity(humanFirst: bool): nat {
    if humanFirst then 0 else 1
  }

  /**
   * The chain part of the session invariant: the accepted words, the
   * human's and the computer's alike, form a chain of distinct linked bank
   * words; usedWords, lastWord and roundCounter summarise it; whose turn it
   * is follows from its length; each side's points are the lengths it played.
   */
  ghost predicate ChainInv(chain: seq<string>, lastWord: Option<string>, usedWords: set<string>,
                           roundCounter: int, playerTurn: bool, humanFirst: bool,
                           playerPoints: int, computerPoints: int, bank: seq<string>)
  {
    var hp := HumanParity(humanFirst);
    && IsChain(chain, bank)
    && usedWords == Elements(chain)
    && lastWord == LastOf(chain)
    && roundCounter == |chain|
    && playerTurn == (|chain| % 2 == hp)
    && playerPoints == Score(chain, hp) && computerPoints == Score(chain, 1 - hp)
  }

  /**
   * The error part: the human has no errors while the computer is to move,
   * fewer than three while the game goes on and exactly three when
   * eliminated; a timeout or elimination happens on the human's turn, the
   * computer's failure on its own.
   */
  predicate ErrorInv(playerErrors: int, playerTurn: bool, outcome: Outcome) {
    && (!playerTurn ==> playerErrors == 0)
    && (if outcome.Eliminated? then playerErrors == 3 else 0 <= playerErrors < 3)
    && (outcome.TimedOut? || outcome.Eliminated? ==> outcome.player == Human && playerTurn)
    && (outcome.ComputerStuck? ==> !playerTurn)
  }

  /** The session invariant. */
  ghost predicate Inv(s: SinglePlayerState, bank: seq<string>) {
    && WellShaped(s)
    && ChainInv(s.chain, s.lastWord, s.usedWords, s.roundCounter, s.playerTurn, s.humanFirst,
                s.playerPoints, s.computerPoints, bank)
    && ErrorInv(s.playerErrors, s.playerTurn, s.outcome)
  }

  lemma InitialInv(humanFirst: bool, bank: seq<string>)
    ensures Inv(Initial(humanFirst), bank)
  {
  }

  /** Appending an unused word linked to the last one keeps the chain part, for the side whose turn it was. */
  lemma ChainInvExtend(s: SinglePlayerState, bank: seq<string>, w: string)
    requires Inv(s, bank)
    requires w in bank && IsNormalWord(w) && w !in s.usedWords && Links(s.lastWord, w)
    ensures var hp := HumanParity(s.humanFirst);
      ChainInv(s.chain + [w], Some(w), s.usedWords + {w}, s.roundCounter + 1, !s.playerTurn, s.humanFirst,
               s.playerPoints + (if s.playerTurn then |w| else 0),
               s.computerPoints + (if s.playerTurn then 0 else |w|), bank)
  {
    var hp := HumanParity(s.humanFirst);
    ExtendChain(s.chain, bank, w);
    ScoreAppend(s.chain, w, hp);
    ScoreAppend(s.chain, w, 1 - hp);
    ParityStep(|s.chain|);
  }

  /**
   * An accepted human word clears the human's errors, joins the used words,
   * becomes the last word, earns its length for the human and passes the
   * turn to the computer; the computer's points stay as they were.
   */
  lemma HumanAcceptedRecorded(s: SinglePlayerState, w: string)
    requires WellShaped(s) && s.outcome == Playing && |w| > 0
    ensures var r := HumanAdvance(s, Accepted(w));
      && r.playerErrors == 0 && r.usedWords == s.usedWords + {w}
      && r.lastWord == Some(w) && r.chain == s.chain + [w]
      && r.playerPoints == s.playerPoints + |w| && r.computerPoints == s.computerPoints
      && !r.playerTurn && r.roundCounter == s.roundCounter + 1 && r.outcome == Playing
  {
  }

  lemma HumanAcceptedPreservesInv(s: SinglePlayerState, w: string, bank: seq<string>)
    requires Inv(s, bank) && s.outcome == Playing && s.playerTurn
    requires w in bank && IsNormalWord(w) && w !in s.usedWords && Links(s.lastWord, w)
    ensures Inv(HumanAdvance(s, Accepted(w)), bank)
  {
    var r := HumanAdvance(s, Accepted(w));
    assert r.chain == s.chain + [w] && r.lastWord == Some(w) && r.usedWords == s.usedWords + {w};
    assert r.roundCounter == s.roundCounter + 1 && !r.playerTurn && r.humanFirst == s.humanFirst;
    assert r.playerPoints == s.playerPoints + |w| && r.computerPoints == s.computerPoints;
    ChainInvExtend(s, bank, w);
  }

  /** Every human move keeps the invariant. */
  lemma HumanTurnPreservesInv(s: SinglePlayerState, input: Option<string>, bank: seq<string>)
    requires Inv(s, bank) && s.outcome == Playing && s.playerTurn
    ensures Inv(HumanTurn(s, input, bank), bank)
  {
    var v := Validate(input, s.lastWord, s.usedWords, bank);
    match v
    case Accepted(w) => HumanAcceptedPreservesInv(s, w, bank);
    case Illegal(w) =>
      var r := HumanAdvance(s, v);
      assert r.(playerErrors := s.playerErrors, outcome := s.outcome) == s;
    case NoInput =>
    case NonEvent =>
  }

  lemma ComputerMovePreservesInv(s: SinglePlayerState, w: string, bank: seq<string>)
    requires Inv(s, bank) && s.outcome == Playing && !s.playerTurn
    requires w in bank && IsNormalWord(w) && w !in s.usedWords && Links(s.lastWord, w)
    ensures Inv(ComputerAdvance(s, Some(w)), bank)
  {
    var r := ComputerAdvance(s, Some(w));
    assert r.chain == s.chain + [w] && r.lastWord == Some(w) && r.usedWords == s.usedWords + {w};
    assert r.roundCounter == s.roundCounter + 1 && r.playerTurn && r.humanFirst == s.humanFirst;
    assert r.playerPoints == s.playerPoints && r.computerPoints == s.computerPoints + |w|;
    ChainInvExtend(s, bank, w);
  }

  /** Every computer move keeps the invariant: its word is unused, from the bank and linked. */
  lemma ComputerTurnPreservesInv(s: SinglePlayerState, roll: nat, bank: seq<string>)
    requires Inv(s, bank) && IsWordBank(bank) && s.outcome == Playing && !s.playerTurn
    ensures Inv(ComputerTurn(s, roll, bank), bank)
  {
    var choice := ComputerChoose(bank, s.usedWords, StartLetter(s.lastWord), roll);
    if choice.Some? {
      ComputerMovePreservesInv(s, choice.value, bank);
    }
  }

  /** A non-event leaves every part of the state as it was. */
  lemma NonEventChangesNothing(s: SinglePlayerState, line: string, bank: seq<string>)
    requires WellShaped(s) && IsNonEvent(line)
    ensures HumanTurn(s, Some(line), bank) == s
  {
  }

  /** A timeout ends the session with the human as the loser and changes nothing else. */
  lemma TimeoutLoses(s: SinglePlayerState, bank: seq<string>)
    requires WellShaped(s)
    ensures HumanTurn(s, None, bank) == s.(outcome := TimedOut(Human))
  {
  }

  /**
   * An illegal word adds one to the human's error count and changes nothing
   * else but the outcome; the computer wins exactly when that count reaches 3.
   */
  lemma IllegalWordCharged(s: SinglePlayerState, w: string)
    requires WellShaped(s) && ErrorInv(s.playerErrors, s.playerTurn, s.outcome) && s.outcome == Playing
    ensures var r := HumanAdvance(s, Illegal(w));
      && r.playerErrors == s.playerErrors + 1
      && r.(playerErrors := s.playerErrors, outcome := s.outcome) == s
      && (r.outcome == Eliminated(Human) <==> r.playerErrors == 3)
      && (r.outcome != Eliminated(Human) ==> r.outcome == Playing)
  {
  }

  /** The computer is stuck exactly when no bank word is unused and starts with the required unit. */
  lemma ComputerStuckIffNoCandidate(s: SinglePlayerState, roll: nat, bank: seq<string>)
    requires WellShaped(s) && NonEmptyWords(bank) && s.outcome == Playing
    ensures ComputerTurn(s, roll, bank).outcome == ComputerStuck <==>
      forall w | w in bank :: w in s.usedWords || (s.lastWord.Some? && LeadingUnit(w) != TrailingUnit(s.lastWord.value))
    ensures ComputerTurn(s, roll, bank).outcome == ComputerStuck ==> ComputerTurn(s, roll, bank) == s.(outcome := ComputerStuck)
  {
  }

  /**
   * A computer move records its word and scores it for the computer and
   * passes the turn; the human's points and errors, the outcome and the
   * starting side stay as they were.
   */
  lemma ComputerMoveRecorded(s: SinglePlayerState, roll: nat, bank: seq<string>)
    requires WellShaped(s) && NonEmptyWords(bank)
    requires ComputerChoose(bank, s.usedWords, StartLetter(s.lastWord), roll).Some?
    ensures var w := ComputerChoose(bank, s.usedWords, StartLetter(s.lastWord), roll).value;
      var r := ComputerTurn(s, roll, bank);
      && w in bank && w !in s.usedWords && Links(s.lastWord, w)
      && r.usedWords == s.usedWords + {w} && r.lastWord == Some(w) && r.chain == s.chain + [w]
      && r.computerPoints == s.computerPoints + |w| && r.playerPoints == s.playerPoints
      && r.playerTurn && r.roundCounter == s.roundCounter + 1
      && r.playerErrors == s.playerErrors && r.outcome == s.outcome && r.humanFirst == s.humanFirst
  {
    var c := ComputerChoose(bank, s.usedWords, StartLetter(s.lastWord), roll);
    assert ComputerTurn(s, roll, bank) == ComputerAdvance(s, c);
    assert Eligible(c.value, s.usedWords, StartLetter(s.lastWord));
  }

  /** Any run of the loop keeps the invariant. */
  lemma {:induction false} RunPreservesInv(s: SinglePlayerState, inputs: seq<Option<string>>, rolls: seq<nat>, bank: seq<string>)
    requires Inv(s, bank) && IsWordBank(bank)
    ensures Inv(Run(s, inputs, rolls, bank), bank)
    decreases |inputs| + |rolls|
  {
    if s.outcome == Playing {
      if s.playerTurn {
        if inputs != [] {
          HumanTurnPreservesInv(s, inputs[0], bank);
          RunPreservesInv(HumanTurn(s, inputs[0], bank), inputs[1..], rolls, bank);
        }
      } else if rolls != [] {
        ComputerTurnPreservesInv(s, rolls[0], bank);
        RunPreservesInv(ComputerTurn(s, rolls[0], bank), inputs, rolls[1..], bank);
      }
    }
  }

  /**
   * Whatever is typed and drawn, a session reached from the start has played
   * only bank words, none twice, each linked to the one before; while it
   * goes on the human has fewer than three errors; the two scores add up to
   * the letters played.
   */
  lemma ReachableSession(humanFirst: bool, inputs: seq<Option<string>>, rolls: seq<nat>, bank: seq<string>)
    requires IsWordBank(bank)
    ensures var r := Run(Initial(humanFirst), inputs, rolls, bank);
      && IsChain(r.chain, bank)
      && (forall w | w in r.usedWords :: w in bank)
      && (r.outcome == Playing ==> 0 <= r.playerErrors < 3)
      && r.playerPoints + r.computerPoints == TotalLength(r.chain)
  {
    InitialInv(humanFirst, bank);
    RunPreservesInv(Initial(humanFirst), inputs, rolls, bank);
    var r := Run(Initial(humanFirst), inputs, rolls, bank);
    ScoresAddUp(r.chain);
  }

  /** A single-player session: the local variables of SinglePlayerMode, with the static usedWords and roundCounter. */
  class SinglePlayerGame {
    const wordBank: seq<string>
    var lastWord: Option<string>
    var usedWords: set<string>
    var playerPoints: int
    var computerPoints: int
    var playerErrors: int
    var playerTurn: bool
    var roundCounter: int
    var outcome: Outcome
    ghost var chain: seq<string>
    ghost const humanFirst: bool

    /** The session's fields as a state of the machine. */
    ghost function State(): SinglePlayerState
      reads this
    {
      SinglePlayerState(lastWord, usedWords, playerPoints, computerPoints, playerErrors,
                        playerTurn, roundCounter, outcome, chain, humanFirst)
    }

    ghost predicate Valid()
      reads this
    {
      IsWordBank(wordBank) && Inv(State(), wordBank)
    }

    /** The set-up of SinglePlayerMode, with the used words cleared as the game's start does: `answer` is the line read at the start prompt. */
    constructor (bank: seq<string>, answer: string)
      requires IsWordBank(bank)
      ensures Valid() && wordBank == bank && State() == Initial(HumanStarts(answer))
    {
      var humanStarts := HumanStarts(answer);
      wordBank := bank;
      lastWord := None;
      usedWords := {};
      playerPoints, computerPoints, playerErrors := 0, 0, 0;
      playerTurn := humanStarts;
      roundCounter := 0;
      outcome := Playing;
      chain := [];
      humanFirst := humanStarts;
      new;
      InitialInv(humanStarts, bank);
    }

    /** The human branch of one iteration on the line read (None: the read timed out). */
    method HumanStep(input: Option<string>)
      requires Valid() && outcome == Playing && playerTurn
      modifies this
      ensures Valid()
      ensures State() == HumanTurn(old(State()), input, wordBank)
    {
      ghost var v := Validate(input, lastWord, usedWords, wordBank);
      HumanTurnPreservesInv(State(), input, wordBank);
      if input.None? {
        outcome := TimedOut(Human);
        return;
      }
      var w := NormalizeWord(input.value);
      if w.None? || |w.value| < 2 {
        return;
      }
      var word := w.value;
      var breaksChain := false;
      if lastWord.Some? {
        var first := GetFirstLetter(word);
        var last := GetLastLetter(lastWord.value);
        breaksChain := first != last;
      }
      if word !in wordBank || breaksChain || word in usedWords {
        assert v == Illegal(word);
        Charge(word);
      } else {
        assert v == Accepted(word);
        Accept(word);
      }
    }

    /** The illegal-word branch of the human's turn: the human is charged an error, and a third one in a row hands the game to the computer. */
    method Charge(ghost word: string)
      requires WellShaped(State()) && outcome == Playing
      modifies this
      ensures State() == HumanAdvance(old(State()), Illegal(word))
    {
      playerErrors := playerErrors + 1;
      if playerErrors >= 3 {
        outcome := Eliminated(Human);
      }
    }

    /** The accepting branch of the human's turn: the word is recorded and scored for the human, and the turn passes. */
    method Accept(word: string)
      requires WellShaped(State()) && |word| > 0
      modifies this
      ensures State() == HumanAdvance(old(State()), Accepted(word))
    {
      playerErrors := 0;
      Record(word);
      playerPoints := playerPoints + |word|;
      playerTurn := false;
    }

    /** The recording steps the human and the computer branch share: the word becomes the last word and is used up. */
    method Record(word: string)
      modifies this
      ensures lastWord == Some(word) && usedWords == old(usedWords) + {word}
      ensures roundCounter == old(roundCounter) + 1 && chain == old(chain) + [word]
      ensures playerPoints == old(playerPoints) && computerPoints == old(computerPoints)
      ensures playerErrors == old(playerErrors) && playerTurn == old(playerTurn) && outcome == old(outcome)
    {
      usedWords := usedWords + {word};
      lastWord := Some(word);
      roundCounter := roundCounter + 1;
      chain := chain + [word];
    }

    /** The computer branch of one iteration; `roll` stands for the random draw. */
    method ComputerStep(roll: nat)
      requires Valid() && outcome == Playing && !playerTurn
      modifies this
      ensures Valid()
      ensures State() == ComputerTurn(old(State()), roll, wordBank)
    {
      ghost var s0 := State();
      ComputerTurnPreservesInv(s0, roll, wordBank);
      var start := "";
      if lastWord.Some? {
        start := GetLastLetter(lastWord.value);
      }
      assert start == StartLetter(s0.lastWord);
      var choice := ComputerChoose(wordBank, usedWords, start, roll);
      assert ComputerTurn(s0, roll, wordBank) == ComputerAdvance(s0, choice);
      ComputerMove(choice);
    }

    /** The computer branch on ComputerChoose's answer: no word ends the session, a word is recorded and scored for the computer. */
    method ComputerMove(choice: Option<string>)
      requires WellShaped(State()) && (choice.Some? ==> |choice.value| > 0)
      modifies this
      ensures State() == ComputerAdvance(old(State()), choice)
    {
      if choice.None? {
        outcome := ComputerStuck;
        return;
      }
      Record(choice.value);
      computerPoints := computerPoints + |choice.value|;
      playerTurn := true;
    }

    /**
     * The loop of SinglePlayerMode on a sequence of reads and a sequence of
     * draws: runs until the session ends or the next read or draw is
     * missing, and says how many of each it consumed.
     */
    method Play(inputs: seq<Option<string>>, rolls: seq<nat>) returns (n: nat, m: nat)
      requires Valid()
      modifies this
      ensures Valid()
      ensures State() == Run(old(State()), inputs, rolls, wordBank)
      ensures n <= |inputs| && m <= |rolls|
      ensures outcome == Playing ==> (if playerTurn then n == |inputs| else m == |rolls|)
    {
      n, m := 0, 0;
      while outcome == Playing && (if playerTurn then n < |inputs| else m < |rolls|)
        invariant n <= |inputs| && m <= |rolls| && Valid()
        invariant Run(State(), inputs[n..], rolls[m..], wordBank) == Run(old(State()), inputs, rolls, wordBank)
        decreases |inputs| - n + |rolls| - m
      {
        if playerTurn {
          ghost var s0 := State();
          assert inputs[n..][1..] == inputs[n + 1..];
          assert Run(s0, inputs[n..], rolls[m..], wordBank)
              == Run(HumanTurn(s0, inputs[n], wordBank), inputs[n + 1..], rolls[m..], wordBank);
          HumanStep(inputs[n]);
          n := n + 1;
        } else {
          ghost var s0 := State();
          assert rolls[m..][1..] == rolls[m + 1..];
          assert Run(s0, inputs[n..], rolls[m..], wordBank)
              == Run(ComputerTurn(s0, rolls[m], wordBank), inputs[n..], rolls[m + 1..], wordBank);
          ComputerStep(rolls[m]);
          m := m + 1;
        }
      }
    }
  }
}
