/**
 * The Wordle engine's tile colouring (flasktest/imports/wordle_imp.py) and the
 * 25-tile board the pages render: five rows of five [letter, colour] tiles.
 */
module WordleImp {
  import opened Text

  /** The three CSS colours a tile can carry. */
  datatype Colour = Grey | Yellow | Green

  /** The CSS value each colour is rendered with. */
  function Css(c: Colour): string
  {
    match c
    case Grey => "var(--grey)"
    case Yellow => "var(--yellow)"
    case Green => "var(--green)"
  }

  /** The page tells the three colours apart: each has its own CSS value. */
  lemma CssDistinct(a: Colour, b: Colour)
    ensures Css(a) == Css(b) <==> a == b
  {
    if a != b {
      assert |Css(a)| != |Css(b)|;
    }
  }

  /** One [letter, colour] pair of the board. */
  datatype Tile = Tile(letter: char, colour: Colour)

  /** The tile of a slot that no guess has filled yet: [".", grey]. */
  const EmptyTile := Tile('.', Grey)

  /** The colour rule for the letter at `index`: green on a positional match,
      otherwise yellow when the letter occurs anywhere in the answer, otherwise
      grey. Nothing is deducted for letters already matched. */
  function TileFor(letter: char, index: nat, answer: string): Tile
    requires index < |answer|
  {
    if letter == answer[index] then Tile(letter, Green)
    else if letter in answer then Tile(letter, Yellow)
    else Tile(letter, Grey)
  }

  /** The row of tiles a guess earns against an answer. */
  function Coloured(guess: string, answer: string): (r: seq<Tile>)
    requires |guess| <= |answer|
    ensures |r| == |guess|
  {
    seq(|guess|, i requires 0 <= i < |guess| => TileFor(guess[i], i, answer))
  }

  /** One tile per letter of the guess, carrying that letter: green exactly on
      a positional match; yellow exactly when the letter misses its position
      but occurs somewhere in the answer; grey exactly when it does not occur. */
  lemma ColourRule(guess: string, answer: string)
    requires |guess| <= |answer|
    ensures var r := Coloured(guess, answer);
      && |r| == |guess|
      && (forall i :: 0 <= i < |guess| ==> r[i].letter == guess[i])
      && (forall i :: 0 <= i < |guess| ==> (r[i].colour == Green <==> guess[i] == answer[i]))
      && (forall i :: 0 <= i < |guess| ==>
            (r[i].colour == Yellow <==> guess[i] != answer[i] && guess[i] in answer))
      && (forall i :: 0 <= i < |guess| ==> (r[i].colour == Grey <==> guess[i] !in answer))
  {
  }

  /** Repeated letters are all marked: two equal letters of a guess that both
      miss their own position get the same colour, whatever the answer holds. */
  lemma NoDuplicateDeduction(guess: string, answer: string, i: nat, j: nat)
    requires |guess| <= |answer| && i < |guess| && j < |guess|
    requires guess[i] == guess[j] && guess[i] != answer[i] && guess[j] != answer[j]
    ensures Coloured(guess, answer)[i] == Coloured(guess, answer)[j]
  {
    ColourRule(guess, answer);
    var r := Coloured(guess, answer);
    assert r[i].colour == Yellow <==> r[j].colour == Yellow;
    assert r[i].colour == Grey <==> r[j].colour == Grey;
  }

  /** The loop shared by round1_data .. round5_data: one tile per letter, in order. */
  method ColourGuess(guess: string, answer: string) returns (colors: seq<Tile>)
    requires |guess| <= |answer|
    ensures colors == Coloured(guess, answer)
  {
    colors := [];
    for index := 0 to |guess|
      invariant |colors| == index
      invariant forall k :: 0 <= k < index ==> colors[k] == TileFor(guess[k], k, answer)
    {
      var letter := guess[index];
      if letter == answer[index] {
        colors := colors + [Tile(letter, Green)];
      } else if letter in answer {
        colors := colors + [Tile(letter, Yellow)];
      } else {
        colors := colors + [Tile(letter, Grey)];
      }
    }
  }

  /** n empty tiles. */
  function EmptyTiles(n: nat): (r: seq<Tile>)
    ensures |r| == n
    ensures forall i :: 0 <= i < n ==> r[i] == EmptyTile
  {
    seq(n, _ => EmptyTile)
  }

  /** The board of a new game: 25 [".", grey] tiles. */
  function EmptyGrid(): (g: seq<Tile>)
    ensures |g| == 25
    ensures forall i :: 0 <= i < 25 ==> g[i] == EmptyTile
  {
    EmptyTiles(25)
  }

  /** Python's slice assignment `s[lo:hi] = t`. */
  function SliceAssign(s: seq<Tile>, lo: nat, hi: nat, t: seq<Tile>): (r: seq<Tile>)
    requires lo <= hi <= |s|
    ensures |r| == |s| - (hi - lo) + |t|
  {
    s[..lo] + t + s[hi..]
  }

  /** Every guess of a played game is a five-letter word, and so is the answer. */
  predicate PlayedWords(answer: string, guesses: seq<string>)
  {
    |answer| == 5 && |guesses| <= 5 && forall g <- guesses :: |g| == 5
  }

  /** The coloured rows of the guesses, first guess on top. */
  function Rows(answer: string, guesses: seq<string>): (r: seq<Tile>)
    requires |answer| == 5 && forall g <- guesses :: |g| == 5
    ensures |r| == 5 * |guesses|
  {
    if guesses == [] then []
    else Rows(answer, guesses[..|guesses| - 1]) + Coloured(guesses[|guesses| - 1], answer)
  }

  /** The board after the given guesses: their rows, then empty tiles up to 25. */
  function Grid(answer: string, guesses: seq<string>): (g: seq<Tile>)
    requires PlayedWords(answer, guesses)
    ensures |g| == 25
  {
    Rows(answer, guesses) + EmptyTiles(25 - 5 * |guesses|)
  }

  /** Tile j of row k is tile j of guess k's colouring. */
  lemma {:induction false} RowsAt(answer: string, guesses: seq<string>, k: nat, j: nat)
    requires |answer| == 5 && forall g <- guesses :: |g| == 5
    requires k < |guesses| && j < 5
    ensures Rows(answer, guesses)[5 * k + j] == Coloured(guesses[k], answer)[j]
  {
    var n := |guesses| - 1;
    var front := guesses[..n];
    assert Rows(answer, guesses) == Rows(answer, front) + Coloured(guesses[n], answer);
    if k < n {
      RowsAt(answer, front, k, j);
      assert front[k] == guesses[k];
    }
  }

  /** The board shows row k as guess k coloured against the answer, and the
      rows after the last guess as empty tiles. */
  lemma GridTiles(answer: string, guesses: seq<string>)
    requires PlayedWords(answer, guesses)
    ensures forall k, j :: 0 <= k < |guesses| && 0 <= j < 5 ==>
              Grid(answer, guesses)[5 * k + j] == Coloured(guesses[k], answer)[j]
    ensures forall i :: 5 * |guesses| <= i < 25 ==> Grid(answer, guesses)[i] == EmptyTile
  {
    forall k, j | 0 <= k < |guesses| && 0 <= j < 5
      ensures Grid(answer, guesses)[5 * k + j] == Coloured(guesses[k], answer)[j]
    {
      RowsAt(answer, guesses, k, j);
    }
  }

  /** No guesses, no colours: the board before the first guess is the empty board. */
  lemma GridOfNoGuesses(answer: string)
    requires |answer| == 5
    ensures Grid(answer, []) == EmptyGrid()
  {
  }

  /** Slice-assigning the row of a further guess into the board of the
      guesses before it, at the next free row, gives the board with that
      guess appended. */
  lemma GridExtend(answer: string, done: seq<string>, word: string)
    requires PlayedWords(answer, done) && |done| < 5 && |word| == 5
    ensures PlayedWords(answer, done + [word])
    ensures SliceAssign(Grid(answer, done), 5 * |done|, 5 * |done| + 5, Coloured(word, answer))
            == Grid(answer, done + [word])
  {
    var n, longer := |done|, done + [word];
    assert longer[..n] == done;
    assert Rows(answer, longer) == Rows(answer, done) + Coloured(word, answer);
    var g := Grid(answer, done);
    assert g[..5 * n] == Rows(answer, done);
    assert g[5 * n + 5..] == EmptyTiles(20 - 5 * n);
  }

  /** One game as the Wordle class keeps it: the upper-cased answer, the five
      guesses, a round counter and the empty starting board. */
  class Wordle {
    var answer: string
    var guess1: string
    var guess2: string
    var guess3: string
    var guess4: string
    var guess5: string
    var round: int
    var gameStart: seq<Tile>

    ghost predicate Valid()
      reads this
    {
      gameStart == EmptyGrid()
    }

    constructor (answer: string)
      ensures this.answer == Upper(answer)
      ensures guess1 == "" && guess2 == "" && guess3 == "" && guess4 == "" && guess5 == ""
      ensures round == 0
      ensures Valid()
    {
      this.answer := Upper(answer);
      guess1, guess2, guess3, guess4, guess5 := "", "", "", "", "";
      round := 0;
      gameStart := EmptyTiles(25);
    }

    /** The board for a new game. */
    method StartWordle() returns (grid: seq<Tile>)
      requires Valid()
      ensures |grid| == 25 && forall i :: 0 <= i < 25 ==> grid[i] == EmptyTile
    {
      grid := gameStart;
    }

    method Round1Data(guess: string, answer: string) returns (colors: seq<Tile>)
      requires |guess| <= |answer|
      modifies this`round, this`guess1
      ensures colors == Coloured(guess, answer)
      ensures round == old(round) + 1 && guess1 == guess
    {
      colors := ColourGuess(guess, answer);
      round := round + 1;
      guess1 := guess;
    }

    method Round2Data(guess: string, answer: string) returns (colors: seq<Tile>)
      requires |guess| <= |answer|
      modifies this`round, this`guess2
      ensures colors == Coloured(guess, answer)
      ensures round == old(round) + 1 && guess2 == guess
    {
      colors := ColourGuess(guess, answer);
      round := round + 1;
      guess2 := guess;
    }

    method Round3Data(guess: string, answer: string) returns (colors: seq<Tile>)
      requires |guess| <= |answer|
      modifies this`round, this`guess3
      ensures colors == Coloured(guess, answer)
      ensures round == old(round) + 1 && guess3 == guess
    {
      colors := ColourGuess(guess, answer);
      round := round + 1;
      guess3 := guess;
    }

    method Round4Data(guess: string, answer: string) returns (colors: seq<Tile>)
      requires |guess| <= |answer|
      modifies this`round, this`guess4
      ensures colors == Coloured(guess, answer)
      ensures round == old(round) + 1 && guess4 == guess
    {
      colors := ColourGuess(guess, answer);
      round := round + 1;
      guess4 := guess;
    }

    method Round5Data(guess: string, answer: string) returns (colors: seq<Tile>)
      requires |guess| <= |answer|
      modifies this`round, this`guess5
      ensures colors == Coloured(guess, answer)
      ensures round == old(round) + 1 && guess5 == guess
    {
      colors := ColourGuess(guess, answer);
      round := round + 1;
      guess5 := guess;
    }
  }
}
