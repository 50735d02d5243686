# Szólánc word-chain game: a verified model of its rules and game loops

The program is a console word-chain game ("Szólánc"). Players take turns
naming Hungarian words from a dictionary. Each word must begin with the
letter the previous word ended with. The six digraphs cs, sz, ny, gy, ty and
ly count as single letters. No word may be played twice in a session. A
player who answers too slowly loses. A player whose third consecutive word is
illegal loses. In single-player mode the computer loses when it finds no word.

The project models the core of `Program.cs` in six modules:

- `Wrappers` (`wrappers.dfy`): the `Option` type.
- `WordRules` (`word_rules.dfy`): `NormalizeWord`, covering `String.Trim`,
  `ToLowerInvariant` and the leftmost greedy match of
  `[letters]+(?:-[letters]+)?`. It also holds the leading and trailing
  "units" and the methods `GetFirstLetter` and `GetLastLetter`, which keep the
  source's loop over the ordered digraph list.
- `WordBank` (`word_bank.dfy`): the `LoadWordBank` pipeline, and
  `ComputerChoose` with its two LINQ filters and its random index.
- `Turns` (`turns.dfy`): what both modes share.
  - the verdict on one read (`Validate`): no input, a non-event, an illegal
    word, or an accepted word
  - the outcomes that end a session
  - the invariants of the chain of accepted words
- `TwoPlayer` (`two_player.dfy`): `TwoPlayerMode`.
  - a pure state machine (`Advance`, `Turn`, `Run`) with its invariant and
    lemmas
  - a class `TwoPlayerGame` whose fields are the mode's local variables: the
    `points` and `errorCount` arrays among them. Its methods are proved to
    update those fields exactly as the state machine says.
- `SinglePlayer` (`single_player.dfy`): `SinglePlayerMode`, built the same
  way.
  - the human's turn (`HumanTurn`)
  - the computer's turn (`ComputerTurn`)
  - a class `SinglePlayerGame`

The accepted words are recorded, in order, in a ghost `chain`. The invariants
state:

- `usedWords` is the set of its words, and `lastWord` its last word.
- No word occurs twice.
- Every word is a normalised bank word, linked to the one before.
- `roundCounter` is its length.
- The player to move follows from its parity.
- Each side's points are the total length of the words it played.

Inputs the model receives as parameters:

- A read is an `Option<string>`: `None` stands for the 10-second wait of
  `ReadWithRestart` running out. `Some(line)` is the line as read.
- The dictionary is a sequence of lines.
- The random draw of `rnd.Next` is a natural number `roll`. The chosen
  candidate is the one at index `roll % |candidates|`.
- The answer to the start prompt of single-player mode is a string.

Three behaviours of the code worth noting:

- `NormalizeWord` takes the leftmost match anywhere in the line (`Regex.Match`
  is not anchored), not a match at the start of the line.
- `NormalizeWord` lower-cases with `ToLowerInvariant`, which does not depend on the culture.
- The computer has no error count; its word is played as chosen.

## Model

| member | source | states |
|---|---|---|
| WordRules.IsWhiteSpace | szamkitalalos/szamkitalalos/Program.cs:228-229 | the white-space set of `Char.IsWhiteSpace` that `IsNullOrWhiteSpace` and `Trim` use: it holds space, tab, line feed, carriage return and the no-break space, and no hyphen, digit or ASCII letter |
| WordRules.IsLetter | szamkitalalos/szamkitalalos/Program.cs:230 | the pattern's letter class: ASCII letters and the Hungarian accented letters in both cases; a letter is never white space or a hyphen |
| WordRules.LowerChar | szamkitalalos/szamkitalalos/Program.cs:229 | lower-casing maps every capital of the alphabet to its own lower-case partner (32 code points on, one for Ő and Ű), and leaves lower-case letters and all other characters as they are |
| WordRules.Lower | szamkitalalos/szamkitalalos/Program.cs:229 | lower-casing a string keeps its length and lower-cases each character on its own |
| WordRules.IsBlank | szamkitalalos/szamkitalalos/Program.cs:228 | a string is blank exactly when it trims to the empty string |
| WordRules.Trim | szamkitalalos/szamkitalalos/Program.cs:229 | the result is the input between its first and last non-white-space characters; everything cut off is white space |
| WordRules.RegexMatch | szamkitalalos/szamkitalalos/Program.cs:230-231 | no match exactly when the text has no letter; otherwise the value is the leftmost match, where neither letter run can be extended and the hyphen part is taken whenever it exists |
| WordRules.NormalizeWord | szamkitalalos/szamkitalalos/Program.cs:226-232 | None exactly when the line contains no letter of the alphabet; otherwise a normalised word: lower-case letters with at most one inner hyphen |
| WordRules.NormalizeIsLeftmostMatch | szamkitalalos/szamkitalalos/Program.cs:229-231 | a normalised result is a piece of the lower-cased line and is the leftmost greedy match in the trimmed, lower-cased line |
| WordRules.NormalizeNormalWord | szamkitalalos/szamkitalalos/Program.cs:226-232 | every normalised word normalises to itself |
| WordRules.NormalizeIdempotent | szamkitalalos/szamkitalalos/Program.cs:226-232 | normalising a normalised result changes nothing |
| WordRules.DigraphsListed | szamkitalalos/szamkitalalos/Program.cs:236 | the digraphs are exactly the listed cs, sz, ny, gy, ty and ly |
| WordRules.StartsWith | szamkitalalos/szamkitalalos/Program.cs:238 | a word starts with a string exactly when the string is no longer than the word and matches its first characters one by one |
| WordRules.EndsWith | szamkitalalos/szamkitalalos/Program.cs:246 | a word ends with a string exactly when the string is no longer than the word and matches its last characters one by one |
| WordRules.LeadingUnit | szamkitalalos/szamkitalalos/Program.cs:234-240 | the leading unit is one or two characters, is a prefix of the word, and has two characters only when it is a digraph |
| WordRules.TrailingUnit | szamkitalalos/szamkitalalos/Program.cs:242-248 | the trailing unit is one or two characters, is a suffix of the word, and has two characters only when it is a digraph |
| WordRules.UnitIsDigraph | szamkitalalos/szamkitalalos/Program.cs:236-239 | a unit has two characters exactly when the word starts (or ends) with some digraph |
| WordRules.DigraphMatchUnique | szamkitalalos/szamkitalalos/Program.cs:237-238 | no word starts, or ends, with two different digraphs, so the order of the list cannot change the result |
| WordRules.ShortWordUnits | szamkitalalos/szamkitalalos/Program.cs:234-248 | a one-character word, or a word that is exactly a digraph, is its own leading and trailing unit |
| WordRules.DigraphLeads | szamkitalalos/szamkitalalos/Program.cs:237-238 | a word starting with a digraph has that digraph as leading unit, not its first letter |
| WordRules.DigraphTrails | szamkitalalos/szamkitalalos/Program.cs:245-246 | a word ending with a digraph has that digraph as trailing unit, not its last letter |
| WordRules.GetFirstLetter | szamkitalalos/szamkitalalos/Program.cs:234-240 | the loop over the digraph list returns the word's leading unit |
| WordRules.GetLastLetter | szamkitalalos/szamkitalalos/Program.cs:242-248 | the loop over the digraph list returns the word's trailing unit |
| WordBank.LoadWords | szamkitalalos/szamkitalalos/Program.cs:71-74 | every loaded word is normalised, there are no more words than lines, and a word is loaded exactly when some line normalises to it |
| WordBank.LoadWordsOfBank | szamkitalalos/szamkitalalos/Program.cs:71-74 | a list of normalised words loads to itself, in order |
| WordBank.LoadWordsIdempotent | szamkitalalos/szamkitalalos/Program.cs:71-74 | loading a loaded bank again gives the same bank |
| WordBank.Unused | szamkitalalos/szamkitalalos/Program.cs:219 | the first filter keeps exactly the bank words not yet played |
| WordBank.StartingWith | szamkitalalos/szamkitalalos/Program.cs:221 | the second filter keeps exactly the words whose leading unit is the required one |
| WordBank.Eligible | szamkitalalos/szamkitalalos/Program.cs:219-221 | a word passes the two filters when it is unused and, if a unit is required, its leading unit is that unit; an eligible word is unused and starts with the required unit |
| WordBank.Candidates | szamkitalalos/szamkitalalos/Program.cs:219-221 | a word is a candidate exactly when it is an unused bank word with the required leading unit (any leading unit when none is required) |
| WordBank.ComputerChoose | szamkitalalos/szamkitalalos/Program.cs:217-224 | None exactly when no bank word is eligible; otherwise an eligible bank word |
| WordBank.EveryEligibleWordCanBeChosen | szamkitalalos/szamkitalalos/Program.cs:223 | every eligible word is chosen for some random draw |
| Turns.Links | szamkitalalos/szamkitalalos/Program.cs:116 | a word links when there is no last word or its leading unit is the last word's trailing unit |
| Turns.LinkedWordStartsWithUnit | szamkitalalos/szamkitalalos/Program.cs:116 | a word linked to a last word starts with that word's trailing unit |
| Turns.IsNonEvent | szamkitalalos/szamkitalalos/Program.cs:111-114 | a line without letters is ignored; a line that is not ignored normalises to a well-formed word of two or more characters |
| Turns.Validate | szamkitalalos/szamkitalalos/Program.cs:108-126 | no input exactly on a timeout; a non-event exactly when the line normalises to nothing or to one character; otherwise the normalised word of two or more characters, accepted when it is in the bank, unused and linked to the last word, and illegal when any of the three fails |
| Turns.LetterFreeIsNonEvent | szamkitalalos/szamkitalalos/Program.cs:111-114 | a line without letters is a non-event |
| Turns.ScoreAppend | szamkitalalos/szamkitalalos/Program.cs:131 | appending a word adds its length to the score of the side whose position it takes, and nothing to the other side |
| Turns.ScoresAddUp | szamkitalalos/szamkitalalos/Program.cs:131 | the two sides' scores add up to the letters of all the words played |
| Turns.ExtendChain | szamkitalalos/szamkitalalos/Program.cs:117-134 | an unused, normalised bank word linked to the last word extends a chain into a chain; the used set and the last word follow |
| Turns.AcceptedExtendsChain | szamkitalalos/szamkitalalos/Program.cs:117-134 | the word of an accepted verdict extends the chain |
| TwoPlayer.Other | szamkitalalos/szamkitalalos/Program.cs:133 | the turn passes from player 1 to 2 and from 2 to 1 |
| TwoPlayer.Initial | szamkitalalos/szamkitalalos/Program.cs:96-100 | the session starts with no last word, no used or chained words, player 1 to move, zero points, errors and rounds, and the game running |
| TwoPlayer.Advance | szamkitalalos/szamkitalalos/Program.cs:109-135 | a turn keeps the counters at three slots, the player at 1 or 2 and the last word non-empty |
| TwoPlayer.Turn | szamkitalalos/szamkitalalos/Program.cs:108-135 | a turn on a read keeps the state well formed |
| TwoPlayer.Run | szamkitalalos/szamkitalalos/Program.cs:102-136 | the loop keeps the state well formed |
| TwoPlayer.ValidateSound | szamkitalalos/szamkitalalos/Program.cs:111-126 | an accepted word is a normalised bank word of two or more characters, unused and linked to the last word |
| TwoPlayer.InitialInv | szamkitalalos/szamkitalalos/Program.cs:96-100 | the starting state satisfies the session invariant |
| TwoPlayer.TurnPreservesInv | szamkitalalos/szamkitalalos/Program.cs:102-136 | every turn of a running session keeps the session invariant |
| TwoPlayer.AdvancePreservesInv | szamkitalalos/szamkitalalos/Program.cs:109-135 | every verdict that the validation can return keeps the session invariant |
| TwoPlayer.AcceptedPreservesInv | szamkitalalos/szamkitalalos/Program.cs:128-134 | accepting a word keeps the session invariant |
| TwoPlayer.AcceptedKeepsChainInv | szamkitalalos/szamkitalalos/Program.cs:129-134 | accepting a word keeps the chain part: chain, sets, counters and scores |
| TwoPlayer.AcceptedExtendsIsChain | szamkitalalos/szamkitalalos/Program.cs:130-132 | after an acceptance the chain is still a chain, and the used set and the last word summarise it |
| TwoPlayer.AcceptedKeepsLength | szamkitalalos/szamkitalalos/Program.cs:113 | every word of a two-player chain has two or more characters |
| TwoPlayer.AcceptedScores | szamkitalalos/szamkitalalos/Program.cs:131-134 | after an acceptance the round count is the chain length, the player to move follows its parity, and each player's points are the letters they played |
| TwoPlayer.PointsExtend | szamkitalalos/szamkitalalos/Program.cs:131-133 | the mover's points grow by the word's length, and the other player moves next |
| TwoPlayer.LongWordsExtend | szamkitalalos/szamkitalalos/Program.cs:113 | appending a word of two or more characters keeps all words that long |
| TwoPlayer.AcceptedKeepsErrorInv | szamkitalalos/szamkitalalos/Program.cs:129-133 | accepting a word keeps the error part of the invariant |
| TwoPlayer.ErrorsCleared | szamkitalalos/szamkitalalos/Program.cs:129-133 | clearing the mover's errors and passing the turn leaves both players without errors |
| TwoPlayer.IllegalPreservesInv | szamkitalalos/szamkitalalos/Program.cs:117-125 | charging an error keeps the session invariant |
| TwoPlayer.TimeoutPreservesInv | szamkitalalos/szamkitalalos/Program.cs:109 | a timeout keeps the session invariant, with the mover as the loser |
| TwoPlayer.NonEventChangesNothing | szamkitalalos/szamkitalalos/Program.cs:113-114 | a non-event leaves the whole state unchanged |
| TwoPlayer.TimeoutLoses | szamkitalalos/szamkitalalos/Program.cs:109 | a timeout ends the session with the mover as the loser and changes nothing else |
| TwoPlayer.IllegalWordCharged | szamkitalalos/szamkitalalos/Program.cs:117-125 | an illegal word adds one to the mover's error count and changes nothing else but the outcome; the mover is eliminated exactly when the count reaches 3, otherwise play goes on |
| TwoPlayer.AcceptedWordRecorded | szamkitalalos/szamkitalalos/Program.cs:128-134 | an accepted word is added to the used set, becomes the last word, is appended to the chain, scores its length for the mover, clears the mover's errors and passes the turn; the session goes on |
| TwoPlayer.RunPreservesInv | szamkitalalos/szamkitalalos/Program.cs:102-136 | any run of the loop keeps the session invariant |
| TwoPlayer.RunExtendsChain | szamkitalalos/szamkitalalos/Program.cs:102-136 | the loop only appends to the chain of played words |
| TwoPlayer.ReachableSession | szamkitalalos/szamkitalalos/Program.cs:96-136 | from the start, whatever is typed: only distinct, linked bank words are played, the used set stays inside the bank, errors stay below 3 while playing, and the points add up to the letters played |
| TwoPlayer.TwoPlayerGame.constructor | szamkitalalos/szamkitalalos/Program.cs:96-100 | the fields hold the starting state, in fresh arrays, and satisfy the invariant |
| TwoPlayer.TwoPlayerGame.Step | szamkitalalos/szamkitalalos/Program.cs:104-135 | one iteration updates the fields and arrays exactly as `Turn` says and keeps the invariant |
| TwoPlayer.TwoPlayerGame.Charge | szamkitalalos/szamkitalalos/Program.cs:119-125 | the error branch updates the fields as `Advance` says for an illegal word |
| TwoPlayer.TwoPlayerGame.Accept | szamkitalalos/szamkitalalos/Program.cs:129-134 | the acceptance branch updates the fields as `Advance` says for an accepted word |
| TwoPlayer.TwoPlayerGame.Play | szamkitalalos/szamkitalalos/Program.cs:102-136 | the loop leaves the fields in the state `Run` computes, consuming every read unless the session ended |
| SinglePlayer.HumanStarts | szamkitalalos/szamkitalalos/Program.cs:152-154 | the human starts exactly when the trimmed answer is empty, "i" or "I" |
| SinglePlayer.Initial | szamkitalalos/szamkitalalos/Program.cs:146-154 | the session starts with no last word, no used or chained words, zero points, errors and rounds, the game running, and the human to move exactly when the human chose to start |
| SinglePlayer.HumanAdvance | szamkitalalos/szamkitalalos/Program.cs:165-189 | the human's turn keeps the last word non-empty |
| SinglePlayer.HumanTurn | szamkitalalos/szamkitalalos/Program.cs:165-189 | the human's turn on a read keeps the state well formed |
| SinglePlayer.StartLetter | szamkitalalos/szamkitalalos/Program.cs:193 | the required unit is empty exactly at the start of the session |
| SinglePlayer.ComputerAdvance | szamkitalalos/szamkitalalos/Program.cs:194-210 | the computer's turn keeps the last word non-empty |
| SinglePlayer.ComputerTurn | szamkitalalos/szamkitalalos/Program.cs:193-210 | the computer's turn keeps the state well formed |
| SinglePlayer.Run | szamkitalalos/szamkitalalos/Program.cs:156-214 | the loop keeps the state well formed |
| SinglePlayer.InitialInv | szamkitalalos/szamkitalalos/Program.cs:146-154 | the starting state satisfies the session invariant, whoever starts |
| SinglePlayer.ChainInvExtend | szamkitalalos/szamkitalalos/Program.cs:184-210 | appending an unused, linked bank word keeps the chain part, scoring it for the side to move |
| SinglePlayer.HumanAcceptedRecorded | szamkitalalos/szamkitalalos/Program.cs:184-189 | an accepted human word clears the human's errors, is added to the used set and the chain, becomes the last word, scores its length for the human, leaves the computer's points alone and passes the turn to the computer |
| SinglePlayer.HumanAcceptedPreservesInv | szamkitalalos/szamkitalalos/Program.cs:184-189 | accepting the human's word keeps the session invariant |
| SinglePlayer.HumanTurnPreservesInv | szamkitalalos/szamkitalalos/Program.cs:158-189 | every human turn keeps the session invariant |
| SinglePlayer.ComputerMovePreservesInv | szamkitalalos/szamkitalalos/Program.cs:206-210 | playing an eligible word for the computer keeps the session invariant |
| SinglePlayer.ComputerTurnPreservesInv | szamkitalalos/szamkitalalos/Program.cs:193-210 | every computer turn keeps the session invariant: its word is an unused bank word linked to the last one |
| SinglePlayer.NonEventChangesNothing | szamkitalalos/szamkitalalos/Program.cs:170-171 | a non-event leaves the whole state unchanged |
| SinglePlayer.TimeoutLoses | szamkitalalos/szamkitalalos/Program.cs:166 | a timeout ends the session with the human as the loser and changes nothing else |
| SinglePlayer.IllegalWordCharged | szamkitalalos/szamkitalalos/Program.cs:173-181 | an illegal word adds one to the human's error count and changes nothing else but the outcome; the computer wins exactly when the count reaches 3 |
| SinglePlayer.ComputerStuckIffNoCandidate | szamkitalalos/szamkitalalos/Program.cs:193-199 | the computer is stuck exactly when every bank word is used or, after the first move, has the wrong leading unit; then the outcome is the only field that changes |
| SinglePlayer.ComputerMoveRecorded | szamkitalalos/szamkitalalos/Program.cs:206-210 | the computer's word is an unused, linked bank word; it is added to the used set and the chain, becomes the last word, scores its length for the computer, adds one round and passes the turn to the human; the human's points and errors, the outcome and the starting side stay as they were |
| SinglePlayer.RunPreservesInv | szamkitalalos/szamkitalalos/Program.cs:156-214 | any run of the loop keeps the session invariant |
| SinglePlayer.ReachableSession | szamkitalalos/szamkitalalos/Program.cs:146-214 | from the start, whatever is typed and drawn: only distinct, linked bank words are played, the used set stays inside the bank, the human has fewer than 3 errors while playing, and both scores add up to the letters played |
| SinglePlayer.SinglePlayerGame.constructor | szamkitalalos/szamkitalalos/Program.cs:146-154 | the fields hold the starting state for the answer given and satisfy the invariant |
| SinglePlayer.SinglePlayerGame.HumanStep | szamkitalalos/szamkitalalos/Program.cs:160-189 | the human branch updates the fields exactly as `HumanTurn` says and keeps the invariant |
| SinglePlayer.SinglePlayerGame.Charge | szamkitalalos/szamkitalalos/Program.cs:175-181 | the error branch updates the fields as `HumanAdvance` says for an illegal word |
| SinglePlayer.SinglePlayerGame.Accept | szamkitalalos/szamkitalalos/Program.cs:184-189 | the acceptance branch updates the fields as `HumanAdvance` says for an accepted word |
| SinglePlayer.SinglePlayerGame.Record | szamkitalalos/szamkitalalos/Program.cs:185-189 | a played word is used up and becomes the last word; the round count and the chain grow by one, and nothing else changes |
| SinglePlayer.SinglePlayerGame.ComputerStep | szamkitalalos/szamkitalalos/Program.cs:193-210 | the computer branch updates the fields exactly as `ComputerTurn` says and keeps the invariant |
| SinglePlayer.SinglePlayerGame.ComputerMove | szamkitalalos/szamkitalalos/Program.cs:194-210 | on the chosen word, the computer branch updates the fields as `ComputerAdvance` says |
| SinglePlayer.SinglePlayerGame.Play | szamkitalalos/szamkitalalos/Program.cs:156-214 | the loop leaves the fields in the state `Run` computes, having consumed every read, or every draw, that the side to move needed, unless the session ended |

## Left out

- Console output is not modelled: prompts, colours, the statistics line of `DisplayStats` and the end-of-game messages. These only display state the model holds.
- The timed read of `ReadWithRestart` is a parameter. The task racing the 10-second wait becomes `None` for a timeout and `Some(line)` for a line.
- The restart is not modelled: a line equal to "r" in either case throws `RestartException`, and `Main` catches it and starts over. Such a line never reaches a turn, so this is control flow around the model, not part of it. The "play again" prompt of `RunGame` is left out for the same reason.
- A `null` line at end of input is not modelled. `ReadWithRestart` would fail on it (`input.Trim()` on `null`), and `NormalizeWord`'s own `null` test is never reached with one.
- File I/O is left out. A missing file, a read error or an empty bank ends the process through `Environment.Exit`. The model starts from the file's lines. The two-player lemmas hold for any bank. The single-player lemmas about the computer's turn and about whole sessions need a bank of normalised words, which `LoadWords` always returns.
- Mode selection (Program.cs:44-49) is left out; each mode is a module of its own.
- `rnd.Next` is a parameter `roll`. The model does not capture that the draw is uniform.
- `StartsWith` and `EndsWith` compare by the current culture in .NET. The model compares characters ordinally and does not follow culture-specific collation. Hungarian collation, for example, treats digraphs and doubled digraphs such as "ccs" as units of their own.
- `ToLowerInvariant` is modelled for the letters of the game's alphabet; every other character is kept. Characters outside the alphabet that lower-case into it are not modelled (KELVIN SIGN becomes "k").
- SinglePlayer.HumanStarts: the start prompt lower-cases with `ToLower`, which follows the current culture. The model reads it as invariant lower-casing, so the answer "I" lets the human start. Under a Turkish culture "I" lower-cases to dotless "ı", and the program would give the first move to the computer.
- Points and the round counter are unbounded integers. The C# `int` counters would wrap after more than 2^31 letters or rounds. Error counts never pass 3.
- Concurrency is not modelled. A read still in progress after its timeout is abandoned, and a later line it returns is discarded.
