/**
 * The per-game Wordle record and the functions of flasktest/models.py that
 * create it, read its last guess and play one guess against it; and the
 * record of the countries game.
 */
module Models {
  import opened Text
  import opened WordleImp

  /** The values the record's game-state column holds. */
  datatype GameState = Busy | Win | Loss

  /** The string stored for each state. Only a busy game is stored as
      neither "win" nor "loss". */
  function StateName(s: GameState): (name: string)
    ensures name in ["busy", "win", "loss"]
    ensures name in ["win", "loss"] <==> s != Busy
  {
    match s
    case Busy => "busy"
    case Win => "win"
    case Loss => "loss"
  }

  /** A guess column that holds a five-letter word. */
  predicate Filled(g: Option<string>)
  {
    g.Some? && |g.value| == 5
  }

  /** One row of the WordleData table. Unset (NULL) columns are None. */
  class WordleData {
    var userId: int
    var answer: string
    var round: int
    var guess1: Option<string>
    var guess2: Option<string>
    var guess3: Option<string>
    var guess4: Option<string>
    var guess5: Option<string>
    var winRound: Option<int>
    var gameState: GameState

    /** add_new_wordle: round 0, state busy, no guesses, no winning round. */
    constructor (userId: int, answer: string)
      ensures this.userId == userId && this.answer == answer
      ensures round == 0 && gameState == Busy && winRound == None
      ensures guess1 == None && guess2 == None && guess3 == None && guess4 == None && guess5 == None
    {
      this.userId := userId;
      this.answer := answer;
      round := 0;
      gameState := Busy;
      winRound := None;
      guess1, guess2, guess3, guess4, guess5 := None, None, None, None, None;
    }

    /** The guess column of round k. */
    function GuessAt(k: int): Option<string>
      reads this`guess1, this`guess2, this`guess3, this`guess4, this`guess5
    {
      if k == 1 then guess1
      else if k == 2 then guess2
      else if k == 3 then guess3
      else if k == 4 then guess4
      else if k == 5 then guess5
      else None
    }

    /** What replaying the record needs: a five-letter answer, a round in 0..5
        and a five-letter guess stored for every round played. */
    predicate WellFormed()
      reads this`answer, this`round, this`guess1, this`guess2, this`guess3, this`guess4, this`guess5
    {
      && |answer| == 5
      && 0 <= round <= 5
      && (round >= 1 ==> Filled(guess1))
      && (round >= 2 ==> Filled(guess2))
      && (round >= 3 ==> Filled(guess3))
      && (round >= 4 ==> Filled(guess4))
      && (round >= 5 ==> Filled(guess5))
    }

    /** The guesses played so far, in order. */
    function Guesses(): (gs: seq<string>)
      reads this`answer, this`round, this`guess1, this`guess2, this`guess3, this`guess4, this`guess5
      requires WellFormed()
      ensures |gs| == round && PlayedWords(answer, gs)
    {
      if round == 0 then []
      else if round == 1 then [guess1.value]
      else if round == 2 then [guess1.value, guess2.value]
      else if round == 3 then [guess1.value, guess2.value, guess3.value]
      else if round == 4 then [guess1.value, guess2.value, guess3.value, guess4.value]
      else [guess1.value, guess2.value, guess3.value, guess4.value, guess5.value]
    }

    /** Stores `guess` as the guess of the next round and advances the round
        (the assignments play_wordle_game makes in each of its branches). */
    method Store(guess: string)
      requires WellFormed() && round < 5 && |guess| == 5
      modifies this`round, this`guess1, this`guess2, this`guess3, this`guess4, this`guess5
      ensures WellFormed() && round == old(round) + 1
      ensures Guesses() == old(Guesses()) + [guess]
      ensures forall k :: round < k <= 5 ==> GuessAt(k) == old(GuessAt(k))
    {
      ghost var before := Guesses();
      if round == 0 {
        guess1 := Some(guess);
      } else if round == 1 {
        guess2 := Some(guess);
      } else if round == 2 {
        guess3 := Some(guess);
      } else if round == 3 {
        guess4 := Some(guess);
      } else {
        guess5 := Some(guess);
      }
      round := round + 1;
      assert Guesses() == before + [guess];
    }

    /** The record invariant: no guess is stored beyond the round, and answer,
        guesses, state and winning round agree (see Consistent). */
    ghost predicate Valid()
      reads this
    {
      && WellFormed()
      && (forall k :: round < k <= 5 ==> GuessAt(k) == None)
      && Consistent(answer, Guesses(), gameState, winRound)
    }

    /** The record side of play_wordle_game for an upper-cased guess: a
        matching guess marks the game won, in the round it is played when a
        round is left; otherwise the guess is stored as the next round's
        guess, and a miss in round 5 loses the game. */
    method Play(guess: string) returns (state: GameState)
      requires WellFormed() && |guess| == 5
      modifies this`round, this`guess1, this`guess2, this`guess3, this`guess4, this`guess5
      modifies this`gameState, this`winRound
      ensures WellFormed()
      ensures old(round) < 5 ==> round == old(round) + 1 && Guesses() == old(Guesses()) + [guess]
      ensures old(round) == 5 ==> round == 5 && Guesses() == old(Guesses())
      ensures forall k :: old(round) + 1 < k <= 5 ==> GuessAt(k) == old(GuessAt(k))
      ensures guess == answer ==>
                && state == Win && gameState == Win
                && winRound == (if old(round) < 5 then Some(old(round) + 1) else old(winRound))
      ensures guess != answer && old(round) == 4 ==>
                state == Loss && gameState == Loss && winRound == Some(-1)
      ensures guess != answer && old(round) != 4 ==>
                state == Busy && gameState == old(gameState) && winRound == old(winRound)
      ensures old(round) < 5 && old(gameState) == Busy && old(winRound) == None ==>
                && gameState == NextState(answer, old(Guesses()), guess)
                && winRound == NextWinRound(answer, old(Guesses()), guess)
    {
      // There is an active game
      state := Busy;
      // Check for win
      if answer == guess {
        gameState := Win;
        state := Win;
      }
      var played := round;
      if played < 5 {
        Store(guess);
        if state == Win {
          winRound := Some(played + 1);
        } else if played == 4 {
          state := Loss;
          gameState := Loss;
          winRound := Some(-1);
        }
      }
    }
  }

  /** How a game stands after the given guesses: answer and guesses are
      upper-case; busy while no guess matched and a round is left; win on the
      round of the first and only matching guess; loss after five misses. */
  ghost predicate Consistent(answer: string, guesses: seq<string>, state: GameState, winRound: Option<int>)
  {
    && Upper(answer) == answer
    && (forall g <- guesses :: Upper(g) == g)
    && match state
       case Busy => |guesses| < 5 && answer !in guesses && winRound == None
       case Win =>
         && 1 <= |guesses|
         && guesses[|guesses| - 1] == answer
         && answer !in guesses[..|guesses| - 1]
         && winRound == Some(|guesses|)
       case Loss => |guesses| == 5 && answer !in guesses && winRound == Some(-1)
  }

  /** The state a busy game moves to when `guess` is played in round |guesses| + 1. */
  function NextState(answer: string, guesses: seq<string>, guess: string): GameState
  {
    if guess == answer then Win else if |guesses| == 4 then Loss else Busy
  }

  /** The winning round recorded when `guess` is played in round |guesses| + 1. */
  function NextWinRound(answer: string, guesses: seq<string>, guess: string): Option<int>
  {
    if guess == answer then Some(|guesses| + 1) else if |guesses| == 4 then Some(-1) else None
  }

  /** Playing an upper-cased guess in a busy game leaves the record consistent:
      the game is won exactly when the guess is the answer, and lost exactly
      when the fifth guess misses. */
  lemma PlayKeepsConsistent(answer: string, guesses: seq<string>, raw: string)
    ensures var guess := Upper(raw);
            Consistent(answer, guesses, Busy, None) ==>
              Consistent(answer, guesses + [guess], NextState(answer, guesses, guess),
                         NextWinRound(answer, guesses, guess))
  {
    var guess := Upper(raw);
    UpperIdempotent(raw);
    var after := guesses + [guess];
    assert after[..|guesses|] == guesses;
    assert forall g <- after :: g in guesses || g == guess;
  }

  /** add_new_wordle */
  method AddNewWordle(userId: int, answer: string) returns (data: WordleData)
    ensures fresh(data)
    ensures data.userId == userId && data.answer == answer
    ensures data.round == 0 && data.gameState == Busy && data.winRound == None
    ensures forall k :: 1 <= k <= 5 ==> data.GuessAt(k) == None
    ensures |answer| == 5 && Upper(answer) == answer ==> data.Valid()
  {
    data := new WordleData(userId, answer);
  }

  /** get_last_wordle_guess: the highest-numbered set guess among guess4 .. guess1
      (guess5 is never looked at), or None when none is set. */
  function GetLastWordleGuess(data: WordleData): (last: Option<string>)
    reads data
    ensures last == None <==> forall k :: 1 <= k <= 4 ==> data.GuessAt(k) == None
    ensures last != None ==>
              exists k :: 1 <= k <= 4 && data.GuessAt(k) == last &&
                forall m :: k < m <= 4 ==> data.GuessAt(m) == None
  {
    if data.guess4 != None then assert data.GuessAt(4) == data.guess4; data.guess4
    else if data.guess3 != None then assert data.GuessAt(3) == data.guess3; data.guess3
    else if data.guess2 != None then assert data.GuessAt(2) == data.guess2; data.guess2
    else if data.guess1 != None then assert data.GuessAt(1) == data.guess1; data.guess1
    else assert data.GuessAt(4) == data.GuessAt(3) == data.GuessAt(2) == data.GuessAt(1) == None; None
  }

  /** On a valid record the last guess is the guess of the current round,
      except that a finished five-round game reports its fourth guess. */
  lemma LastGuessOfValidRecord(data: WordleData)
    requires data.Valid()
    ensures data.round == 0 ==> GetLastWordleGuess(data) == None
    ensures 1 <= data.round <= 4 ==> GetLastWordleGuess(data) == Some(data.Guesses()[data.round - 1])
    ensures data.round == 5 ==> GetLastWordleGuess(data) == Some(data.Guesses()[3])
  {
    assert data.GuessAt(2) == data.guess2 && data.GuessAt(3) == data.guess3;
    assert data.GuessAt(4) == data.guess4 && data.GuessAt(5) == data.guess5;
  }

  /** One step of a board replay: the Wordle game's round_{which}_data
      colours words[k], the guess of round k + 1, and its five tiles are
      slice-assigned into the board of the k guesses before it. Every
      round_N_data colours alike, so `which` only decides which of the game's
      guess fields is set. */
  method ColourRow(game: Wordle, which: nat, answer: string, words: seq<string>, k: nat, divs: seq<Tile>)
    returns (next: seq<Tile>)
    requires 1 <= which <= 5
    requires PlayedWords(answer, words) && k < |words|
    requires divs == Grid(answer, words[..k])
    modifies game
    ensures next == Grid(answer, words[..k + 1])
  {
    var word := words[k];
    assert forall g <- words[..k] :: g in words;
    GridExtend(answer, words[..k], word);
    assert words[..k] + [word] == words[..k + 1];
    var row;
    if which == 1 {
      row := game.Round1Data(word, answer);
    } else if which == 2 {
      row := game.Round2Data(word, answer);
    } else if which == 3 {
      row := game.Round3Data(word, answer);
    } else if which == 4 {
      row := game.Round4Data(word, answer);
    } else {
      row := game.Round5Data(word, answer);
    }
    next := SliceAssign(divs, 5 * k, 5 * k + 5, row);
  }

  /** The board part of play_wordle_game: a fresh Wordle game colours the
      stored guesses of rounds 1 .. |stored| and then the new guess into the
      empty board, one slice of five tiles per round. A record already at
      round 5 takes no branch and gets the empty board. */
  method ReplayBoard(answer: string, stored: seq<string>, guess: string) returns (divs: seq<Tile>)
    requires PlayedWords(answer, stored) && |guess| == 5
    ensures |stored| < 5 ==> PlayedWords(answer, stored + [guess]) && divs == Grid(answer, stored + [guess])
    ensures |stored| == 5 ==> divs == EmptyGrid()
  {
    var wordleGame := new Wordle(answer);
    divs := wordleGame.gameStart;
    if |stored| == 5 {
      return;
    }
    var words := stored + [guess];
    assert forall g <- words :: g in stored || g == guess;
    GridOfNoGuesses(answer);
    assert words[..0] == [];
    if |stored| == 4 {
      wordleGame := new Wordle(answer);
    }
    divs := ColourRows(wordleGame, [1, 2, 3, 4, 5], answer, words, 0, divs);
  }

  /** The rows k .. |words| - 1 of a board replay, in order: row i is
      coloured by round_{rounds[i]}_data (ColourRow). Each branch of the
      if-chain on the round in play_wordle_game and in the reload of main.py
      spells out this sequence of calls for that round. */
  method ColourRows(game: Wordle, rounds: seq<nat>, answer: string, words: seq<string>, k: nat, divs: seq<Tile>)
    returns (next: seq<Tile>)
    requires |words| <= |rounds| && forall r <- rounds :: 1 <= r <= 5
    requires PlayedWords(answer, words) && k <= |words|
    requires divs == Grid(answer, words[..k])
    modifies game
    ensures next == Grid(answer, words)
    decreases |words| - k
  {
    if k == |words| {
      assert words[..k] == words;
      return divs;
    }
    assert rounds[k] in rounds;
    next := ColourRow(game, rounds[k], answer, words, k, divs);
    next := ColourRows(game, rounds, answer, words, k + 1, next);
  }

  /** play_wordle_game: colours every stored guess and the new one into a
      fresh board (ReplayBoard), stores the upper-cased guess as the next
      round's guess and decides win or loss. A record already at round 5
      takes no branch, but a matching guess still marks it won. */
  method PlayWordleGame(data: WordleData, wordleGuess: string) returns (state: GameState, divs: seq<Tile>)
    requires data.WellFormed() && |wordleGuess| == 5
    modifies data
    ensures data.WellFormed()
    ensures data.userId == old(data.userId) && data.answer == old(data.answer)
    ensures old(data.round) < 5 ==>
              && data.round == old(data.round) + 1
              && data.Guesses() == old(data.Guesses()) + [Upper(wordleGuess)]
              && divs == Grid(data.answer, data.Guesses())
    ensures old(data.round) == 5 ==>
              data.round == 5 && data.Guesses() == old(data.Guesses()) && divs == EmptyGrid()
    ensures forall k {:trigger data.GuessAt(k)} :: old(data.round) + 1 < k <= 5 ==> data.GuessAt(k) == old(data.GuessAt(k))
    ensures Upper(wordleGuess) == data.answer ==>
              && state == Win && data.gameState == Win
              && data.winRound == (if old(data.round) < 5 then Some(old(data.round) + 1) else old(data.winRound))
    ensures Upper(wordleGuess) != data.answer && old(data.round) == 4 ==>
              state == Loss && data.gameState == Loss && data.winRound == Some(-1)
    ensures Upper(wordleGuess) != data.answer && old(data.round) != 4 ==>
              state == Busy && data.gameState == old(data.gameState) && data.winRound == old(data.winRound)
    ensures old(data.Valid()) && old(data.gameState) == Busy ==> data.Valid()
  {
    var guess := Upper(wordleGuess);
    var stored := data.Guesses();
    divs := ReplayBoard(data.answer, stored, guess);
    state := data.Play(guess);
    PlayKeepsConsistent(data.answer, stored, wordleGuess);
  }

  /** One row of the CountriesData table: the two countries on screen (by
      index into the country list), the current streak and the best streak. */
  class CountriesData {
    var userId: int
    var countryOld: int
    var countryNew: int
    var countryStreak: int
    var countryRecord: int

    /** The streak never exceeds the record and neither is negative. */
    ghost predicate Valid()
      reads this
    {
      0 <= countryStreak <= countryRecord
    }
  }
}
