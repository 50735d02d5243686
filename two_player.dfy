/**
 * Two-player mode (Program.cs, TwoPlayerMode): two people take turns on one
 * console. The session is a state machine; `Turn` is one iteration of its
 * loop and `TwoPlayerGame` is the session whose fields the loop updates.
 */
module TwoPlayer {
  import opened Wrappers
  import opened WordRules
  import opened WordBank
  import opened Turns

  /** The opponent of player 1 or 2. */
  function Other(p: int): (q: int)
    requires p == 1 || p == 2
    ensures (q == 1 || q == 2) && q != p
  {
    if p == 1 then 2 else 1
  }

  /**
   * The session's state. `points` and `errorCount` are indexed by player
   * (1 and 2; slot 0 is unused, as in the arrays of the source); `chain`
   * records the accepted words in order.
   */
  datatype TwoPlayerState = TwoPlayerState(
    lastWord: Option<string>,
    usedWords: set<string>,
    points: seq<int>,
    errorCount: seq<int>,
    currentPlayer: int,
    roundCounter: int,
    outcome: Outcome,
    chain: seq<string>)

  /** The shape `Turn` needs: two three-slot counters, a current player, and a last word that has a last letter. */
  predicate WellShaped(s: TwoPlayerState) {
    && |s.points| == 3 && |s.errorCount| == 3
    && (s.currentPlayer == 1 || s.currentPlayer == 2)
    && (s.lastWord.Some? ==> |s.lastWord.value| > 0)
  }

  /** The state at the start of TwoPlayerMode: no word yet, player 1 to move, all counters zero. */
  function Initial(): (s: TwoPlayerState)
    ensures WellShaped(s)
    ensures s.lastWord.None? && s.usedWords == {} && s.chain == [] && s.currentPlayer == 1
    ensures s.points == [0, 0, 0] && s.errorCount == [0, 0, 0] && s.roundCounter == 0 && s.outcome == Playing
  {
    TwoPlayerState(None, {}, [0, 0, 0], [0, 0, 0], 1, 0, Playing, [])
  }

  /**
   * One iteration of TwoPlayerMode's loop, given the verdict on the
   * line read. A timeout ends the session; a non-event changes nothing; an
   * illegal word charges the mover an error, the third in a row ending the
   * session; an accepted word is recorded and scored and passes the turn.
   */
  function Advance(s: TwoPlayerState, v: Verdict): (r: TwoPlayerState)
    requires WellShaped(s) && (v.Accepted? ==> |v.word| > 0)
    ensures WellShaped(r)
  {
    var p := s.currentPlayer;
    match v
    case NoInput => s.(outcome := TimedOut(p))
    case NonEvent => s
    case Illegal(_) =>
      var e := s.errorCount[p] + 1;
      s.(errorCount := s.errorCount[p := e], outcome := if e >= 3 then Eliminated(p) else Playing)
    case Accepted(w) =>
      s.(errorCount := s.errorCount[p := 0],
         usedWords := s.usedWords + {w},
         points := s.points[p := s.points[p] + |w|],
         lastWord := Some(w),
         currentPlayer := Other(p),
         roundCounter := s.roundCounter + 1,
         chain := s.chain + [w])
  }

  /** One iteration of the loop on the line read (None: the wait timed out). */
  function Turn(s: TwoPlayerState, input: Option<string>, bank: seq<string>): (r: TwoPlayerState)
    requires WellShaped(s)
    ensures WellShaped(r)
  {
    Advance(s, Validate(input, s.lastWord, s.usedWords, bank))
  }

  /** The loop run on a sequence of reads, until the session ends or the reads run out. */
  function Run(s: TwoPlayerState, inputs: seq<Option<string>>, bank: seq<string>): (r: TwoPlayerState)
    requires WellShaped(s)
    ensures WellShaped(r)
    decreases |inputs|
  {
    if inputs == [] || s.outcome != Playing then s
    else Run(Turn(s, inputs[0], bank), inputs[1..], bank)
  }

  /** What an accepted verdict guarantees about its word in state `s`. */
  ghost predicate Sound(v: Verdict, s: TwoPlayerState, bank: seq<string>)
    requires WellShaped(s)
  {
    v.Accepted? ==>
      v.word in bank && IsNormalWord(v.word) && |v.word| >= 2 && v.word !in s.usedWords && Links(s.lastWord, v.word)
  }

  lemma ValidateSound(s: TwoPlayerState, input: Option<string>, bank: seq<string>)
    requires WellShaped(s)
    ensures Sound(Validate(input, s.lastWord, s.usedWords, bank), s, bank)
  {
  }

  /**
   * The chain part of the session invariant: the accepted words form a chain
   * of distinct, linked bank words of at least two characters; usedWords,
   * lastWord and roundCounter summarise it; the player to move follows from
   * its length; the points are the lengths each player played.
   */
  ghost predicate ChainInv(chain: seq<string>, lastWord: Option<string>, usedWords: set<string>,
                           roundCounter: int, currentPlayer: int, points: seq<int>, bank: seq<string>)
  {
    && |points| == 3
    && IsChain(chain, bank)
    && (forall i :: 0 <= i < |chain| ==> |chain[i]| >= 2)
    && usedWords == Elements(chain)
    && lastWord == LastOf(chain)
    && roundCounter == |chain|
    && currentPlayer == 1 + |chain| % 2
    && points[0] == 0 && points[1] == Score(chain, 0) && points[2] == Score(chain, 1)
  }

  /**
   * The error part of the session invariant: the player not to move has no
   * errors, the mover fewer than three while the game goes on and exactly
   * three if eliminated; a loser is always the mover.
   */
  predicate ErrorInv(errorCount: seq<int>, currentPlayer: int, outcome: Outcome) {
    && |errorCount| == 3 && (currentPlayer == 1 || currentPlayer == 2)
    && errorCount[0] == 0 && errorCount[Other(currentPlayer)] == 0
    && (if outcome.Eliminated? then errorCount[currentPlayer] == 3
        else 0 <= errorCount[currentPlayer] < 3)
    && (outcome.TimedOut? || outcome.Eliminated? ==> outcome.player == currentPlayer)
    && !outcome.ComputerStuck?
  }

  /** The session invariant. */
  ghost predicate Inv(s: TwoPlayerState, bank: seq<string>) {
    && WellShaped(s)
    && ChainInv(s.chain, s.lastWord, s.usedWords, s.roundCounter, s.currentPlayer, s.points, bank)
    && ErrorInv(s.errorCount, s.currentPlayer, s.outcome)
  }

  lemma InitialInv(bank: seq<string>)
    ensures Inv(Initial(), bank)
  {
  }

  /** Every iteration of the loop keeps the invariant. */
  lemma TurnPreservesInv(s: TwoPlayerState, input: Option<string>, bank: seq<string>)
    requires Inv(s, bank) && s.outcome == Playing
    ensures Inv(Turn(s, input, bank), bank)
  {
    ValidateSound(s, input, bank);
    AdvancePreservesInv(s, Validate(input, s.lastWord, s.usedWords, bank), bank);
  }

  /** Every sound verdict keeps the invariant. */
  lemma AdvancePreservesInv(s: TwoPlayerState, v: Verdict, bank: seq<string>)
    requires Inv(s, bank) && s.outcome == Playing && Sound(v, s, bank)
    ensures Inv(Advance(s, v), bank)
  {
    match v
    case Accepted(w) => AcceptedPreservesInv(s, w, bank);
    case Illegal(w) => IllegalPreservesInv(s, w, bank);
    case NoInput => TimeoutPreservesInv(s, bank);
    case NonEvent =>
  }

  lemma AcceptedPreservesInv(s: TwoPlayerState, w: string, bank: seq<string>)
    requires Inv(s, bank) && s.outcome == Playing && Sound(Accepted(w), s, bank)
    ensures Inv(Advance(s, Accepted(w)), bank)
  {
    AcceptedKeepsChainInv(s, w, bank);
    AcceptedKeepsErrorInv(s, w);
  }

  /** Appending an unused, linked bank word of two or more characters keeps the chain part of the invariant. */
  lemma AcceptedKeepsChainInv(s: TwoPlayerState, w: string, bank: seq<string>)
    requires WellShaped(s) && Sound(Accepted(w), s, bank)
    requires ChainInv(s.chain, s.lastWord, s.usedWords, s.roundCounter, s.currentPlayer, s.points, bank)
    ensures var r := Advance(s, Accepted(w));
      ChainInv(r.chain, r.lastWord, r.usedWords, r.roundCounter, r.currentPlayer, r.points, bank)
  {
    AcceptedExtendsIsChain(s, w, bank);
    AcceptedKeepsLength(s, w);
    AcceptedScores(s, w);
  }

  /** The accepted word extends the chain, and usedWords and lastWord still summarise it. */
  lemma AcceptedExtendsIsChain(s: TwoPlayerState, w: string, bank: seq<string>)
    requires WellShaped(s) && Sound(Accepted(w), s, bank)
    requires IsChain(s.chain, bank) && s.usedWords == Elements(s.chain) && s.lastWord == LastOf(s.chain)
    ensures var r := Advance(s, Accepted(w));
      IsChain(r.chain, bank) && r.usedWords == Elements(r.chain) && r.lastWord == LastOf(r.chain)
  {
    var r := Advance(s, Accepted(w));
    assert r.chain == s.chain + [w] && r.lastWord == Some(w) && r.usedWords == s.usedWords + {w};
    ExtendChain(s.chain, bank, w);
  }

  /** Every word of the chain keeps two or more characters. */
  lemma AcceptedKeepsLength(s: TwoPlayerState, w: string)
    requires WellShaped(s) && |w| >= 2
    requires forall i :: 0 <= i < |s.chain| ==> |s.chain[i]| >= 2
    ensures var r := Advance(s, Accepted(w));
      forall i :: 0 <= i < |r.chain| ==> |r.chain[i]| >= 2
  {
    assert Advance(s, Accepted(w)).chain == s.chain + [w];
    LongWordsExtend(s.chain, w);
  }

  /** The round count, the player to move and both scores follow the longer chain. */
  lemma AcceptedScores(s: TwoPlayerState, w: string)
    requires WellShaped(s) && |w| > 0
    requires s.roundCounter == |s.chain| && s.currentPlayer == 1 + |s.chain| % 2
    requires s.points[0] == 0 && s.points[1] == Score(s.chain, 0) && s.points[2] == Score(s.chain, 1)
    ensures var r := Advance(s, Accepted(w));
      && r.roundCounter == |r.chain| && r.currentPlayer == 1 + |r.chain| % 2
      && |r.points| == 3 && r.points[0] == 0 && r.points[1] == Score(r.chain, 0) && r.points[2] == Score(r.chain, 1)
  {
    var r := Advance(s, Accepted(w));
    assert r.chain == s.chain + [w] && r.points == s.points[s.currentPlayer := s.points[s.currentPlayer] + |w|];
    assert r.roundCounter == s.roundCounter + 1 && r.currentPlayer == Other(s.currentPlayer);
    PointsExtend(s.chain, s.points, w);
  }

  lemma AcceptedKeepsErrorInv(s: TwoPlayerState, w: string)
    requires WellShaped(s) && |w| > 0 && ErrorInv(s.errorCount, s.currentPlayer, s.outcome) && s.outcome == Playing
    ensures var r := Advance(s, Accepted(w)); ErrorInv(r.errorCount, r.currentPlayer, r.outcome)
  {
    var r := Advance(s, Accepted(w));
    var p := s.currentPlayer;
    assert r.errorCount == s.errorCount[p := 0] && r.currentPlayer == Other(p) && r.outcome == Playing;
    ErrorsCleared(s.errorCount, p);
  }

  /** Clearing the mover's errors and passing the turn keeps the error part of the invariant. */
  lemma ErrorsCleared(errorCount: seq<int>, p: int)
    requires ErrorInv(errorCount, p, Playing)
    ensures ErrorInv(errorCount[p := 0], Other(p), Playing)
  {
    assert Other(Other(p)) == p;
  }

  lemma IllegalPreservesInv(s: TwoPlayerState, w: string, bank: seq<string>)
    requires Inv(s, bank) && s.outcome == Playing
    ensures Inv(Advance(s, Illegal(w)), bank)
  {
    var r := Advance(s, Illegal(w));
    assert r.(errorCount := s.errorCount, outcome := s.outcome) == s;
    assert ChainInv(r.chain, r.lastWord, r.usedWords, r.roundCounter, r.currentPlayer, r.points, bank);
  }

  lemma TimeoutPreservesInv(s: TwoPlayerState, bank: seq<string>)
    requires Inv(s, bank) && s.outcome == Playing
    ensures Inv(Advance(s, NoInput), bank)
  {
    var r := Advance(s, NoInput);
    assert r == s.(outcome := TimedOut(s.currentPlayer));
    assert ChainInv(r.chain, r.lastWord, r.usedWords, r.roundCounter, r.currentPlayer, r.points, bank);
  }

  /** Appending a word of two or more characters keeps every word of the chain that long. */
  lemma LongWordsExtend(chain: seq<string>, w: string)
    requires forall i :: 0 <= i < |chain| ==> |chain[i]| >= 2
    requires |w| >= 2
    ensures forall i :: 0 <= i < |chain + [w]| ==> |(chain + [w])[i]| >= 2
  {
    var c := chain + [w];
    forall i | 0 <= i < |c| ensures |c[i]| >= 2 {
      if i < |chain| { assert c[i] == chain[i]; }
    }
  }

  /** The mover's points grow by the word's length, and the other player moves next. */
  lemma PointsExtend(chain: seq<string>, points: seq<int>, w: string)
    requires |points| == 3 && points[0] == 0
    requires points[1] == Score(chain, 0) && points[2] == Score(chain, 1)
    ensures var p := 1 + |chain| % 2;
      var pts := points[p := points[p] + |w|];
      && |pts| == 3 && pts[0] == 0
      && pts[1] == Score(chain + [w], 0) && pts[2] == Score(chain + [w], 1)
      && Other(p) == 1 + |chain + [w]| % 2
  {
    var p := 1 + |chain| % 2;
    var pts := points[p := points[p] + |w|];
    ScoreAppend(chain, w, 0);
    ScoreAppend(chain, w, 1);
    ParityStep(|chain|);
    if |chain| % 2 == 0 {
      assert pts[1] == points[1] + |w| && pts[2] == points[2];
    } else {
      assert pts[1] == points[1] && pts[2] == points[2] + |w|;
    }
  }

  /** A non-event leaves every part of the state as it was. */
  lemma NonEventChangesNothing(s: TwoPlayerState, line: string, bank: seq<string>)
    requires WellShaped(s) && IsNonEvent(line)
    ensures Turn(s, Some(line), bank) == s
  {
  }

  /** A timeout ends the session with the player to move as the loser and changes nothing else. */
  lemma TimeoutLoses(s: TwoPlayerState, bank: seq<string>)
    requires WellShaped(s)
    ensures Turn(s, None, bank) == s.(outcome := TimedOut(s.currentPlayer))
  {
  }

  /**
   * An illegal word adds one to the mover's error count and changes nothing
   * else but the outcome; the session ends exactly when that count reaches 3.
   */
  lemma IllegalWordCharged(s: TwoPlayerState, w: string)
    requires WellShaped(s) && ErrorInv(s.errorCount, s.currentPlayer, s.outcome) && s.outcome == Playing
    ensures var r := Advance(s, Illegal(w));
      && r.errorCount == s.errorCount[s.currentPlayer := s.errorCount[s.currentPlayer] + 1]
      && r.(errorCount := s.errorCount, outcome := s.outcome) == s
      && (r.outcome == Eliminated(s.currentPlayer) <==> r.errorCount[s.currentPlayer] == 3)
      && (r.outcome != Eliminated(s.currentPlayer) ==> r.outcome == Playing)
  {
  }

  /**
   * An accepted word clears the mover's errors, joins the used words, earns
   * its length in points, becomes the last word and passes the turn.
   */
  lemma AcceptedWordRecorded(s: TwoPlayerState, w: string)
    requires WellShaped(s) && s.outcome == Playing && |w| > 0
    ensures var p := s.currentPlayer;
      var r := Advance(s, Accepted(w));
      && r.errorCount[p] == 0 && r.errorCount[Other(p)] == s.errorCount[Other(p)]
      && r.usedWords == s.usedWords + {w}
      && r.points[p] == s.points[p] + |w| && r.points[Other(p)] == s.points[Other(p)]
      && r.lastWord == Some(w) && r.chain == s.chain + [w] && r.currentPlayer == Other(p)
      && r.roundCounter == s.roundCounter + 1 && r.outcome == Playing
  {
  }

  /** Any run of the loop keeps the invariant. */
  lemma {:induction false} RunPreservesInv(s: TwoPlayerState, inputs: seq<Option<string>>, bank: seq<string>)
    requires Inv(s, bank)
    ensures Inv(Run(s, inputs, bank), bank)
    decreases |inputs|
  {
    if inputs != [] && s.outcome == Playing {
      TurnPreservesInv(s, inputs[0], bank);
      RunPreservesInv(Turn(s, inputs[0], bank), inputs[1..], bank);
    }
  }

  /** The accepted words only grow: a run extends the chain it starts from. */
  lemma {:induction false} RunExtendsChain(s: TwoPlayerState, inputs: seq<Option<string>>, bank: seq<string>)
    requires WellShaped(s)
    ensures s.chain <= Run(s, inputs, bank).chain
    decreases |inputs|
  {
    if inputs != [] && s.outcome == Playing {
      RunExtendsChain(Turn(s, inputs[0], bank), inputs[1..], bank);
    }
  }

  /**
   * Whatever is typed, a session reached from the start has played only bank
   * words, none twice, each linked to the one before; while it goes on no
   * player has three errors; and the points add up to the letters played.
   */
  lemma ReachableSession(inputs: seq<Option<string>>, bank: seq<string>)
    ensures var r := Run(Initial(), inputs, bank);
      && IsChain(r.chain, bank)
      && (forall w | w in r.usedWords :: w in bank)
      && (r.outcome == Playing ==> 0 <= r.errorCount[1] < 3 && 0 <= r.errorCount[2] < 3)
      && r.points[1] + r.points[2] == TotalLength(r.chain)
  {
    InitialInv(bank);
    RunPreservesInv(Initial(), inputs, bank);
    ScoresAddUp(Run(Initial(), inputs, bank).chain);
  }

  /** A two-player session: the local variables of TwoPlayerMode, with the static usedWords and roundCounter. */
  class TwoPlayerGame {
    const wordBank: seq<string>
    const points: array<int>
    const errorCount: array<int>
    var lastWord: Option<string>
    var usedWords: set<string>
    var currentPlayer: int
    var roundCounter: int
    var outcome: Outcome
    ghost var chain: seq<string>

    /** The session's fields as a state of the machine. */
    ghost function State(): TwoPlayerState
      reads this, points, errorCount
    {
      TwoPlayerState(lastWord, usedWords, points[..], errorCount[..], currentPlayer, roundCounter, outcome, chain)
    }

    ghost predicate Valid()
      reads this, points, errorCount
    {
      points != errorCount && Inv(State(), wordBank)
    }

    /** The set-up of TwoPlayerMode, with the used words cleared as the game's start does: a fresh session on the given bank. */
    constructor (bank: seq<string>)
      ensures Valid() && fresh(points) && fresh(errorCount)
      ensures wordBank == bank && State() == Initial()
    {
      wordBank := bank;
      points := new int[3](_ => 0);
      errorCount := new int[3](_ => 0);
      lastWord := None;
      usedWords := {};
      currentPlayer := 1;
      roundCounter := 0;
      outcome := Playing;
      chain := [];
      new;
      assert points[..] == [0, 0, 0] && errorCount[..] == [0, 0, 0];
      InitialInv(bank);
    }

    /** One iteration of TwoPlayerMode's loop on the line read (None: the read timed out). */
    method Step(input: Option<string>)
      requires Valid() && outcome == Playing
      modifies this, points, errorCount
      ensures Valid()
      ensures State() == Turn(old(State()), input, wordBank)
    {
      ghost var v := Validate(input, lastWord, usedWords, wordBank);
      TurnPreservesInv(State(), input, wordBank);
      if input.None? {
        outcome := TimedOut(currentPlayer);
        return;
      }
      var w := NormalizeWord(input.value);
      if w.None? || |w.value| < 2 {
        return;
      }
      var word := w.value;
      var breaksChain := false;
      if lastWord.Some? {
        var first := GetFirstLetter(word);
        var last := GetLastLetter(lastWord.value);
        breaksChain := first != last;
      }
      if word !in wordBank || breaksChain || word in usedWords {
        assert v == Illegal(word);
        Charge(word);
      } else {
        assert v == Accepted(word);
        Accept(word);
      }
    }

    /** The illegal-word branch of TwoPlayerMode: the mover is charged an error, and a third one in a row eliminates them. */
    method Charge(ghost word: string)
      requires points != errorCount && WellShaped(State()) && outcome == Playing
      modifies this, errorCount
      ensures State() == Advance(old(State()), Illegal(word))
    {
      var p := currentPlayer;
      errorCount[p] := errorCount[p] + 1;
      if errorCount[p] >= 3 {
        outcome := Eliminated(p);
      }
    }

    /** The accepting branch of TwoPlayerMode: the word is recorded and scored, and the turn passes. */
    method Accept(word: string)
      requires points != errorCount && WellShaped(State()) && |word| > 0
      modifies this, points, errorCount
      ensures State() == Advance(old(State()), Accepted(word))
    {
      var p := currentPlayer;
      errorCount[p] := 0;
      usedWords := usedWords + {word};
      points[p] := points[p] + |word|;
      lastWord := Some(word);
      currentPlayer := if p == 1 then 2 else 1;
      roundCounter := roundCounter + 1;
      chain := chain + [word];
    }

    /**
     * The loop of TwoPlayerMode on a sequence of reads: steps until the
     * session ends or the reads run out, and says how many it consumed.
     */
    method Play(inputs: seq<Option<string>>) returns (n: nat)
      requires Valid()
      modifies this, points, errorCount
      ensures Valid()
      ensures State() == Run(old(State()), inputs, wordBank)
      ensures n <= |inputs| && (outcome == Playing ==> n == |inputs|)
    {
      n := 0;
      while n < |inputs| && outcome == Playing
        invariant n <= |inputs| && Valid()
        invariant Run(State(), inputs[n..], wordBank) == Run(old(State()), inputs, wordBank)
      {
        ghost var s0 := State();
        assert inputs[n..][1..] == inputs[n + 1..];
        assert Run(s0, inputs[n..], wordBank) == Run(Turn(s0, inputs[n], wordBank), inputs[n + 1..], wordBank);
        Step(inputs[n]);
        n := n + 1;
      }
    }
  }
}
