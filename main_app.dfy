/**
 * The two game routes of main.py that carry game logic: play_wordle (start
 * a game, accept or reject a guess, reload the board) and the scoring part
 * of countries. The newest record of the player is passed in; the random
 * word choice and the random country draws are parameters.
 */
module MainApp {
  import opened Text
  import opened WordleImp
  import opened Models
  import opened GamesUtils
  import opened Forms

  /** What the browser sent: a plain page load, or the Wordle form with its text. */
  datatype Request = Get | Post(guess: string)

  /** What the page shows besides the board. */
  datatype Notice = Plain | GameWin | GameLoss | NotAccepted(flash: string)

  datatype Page = Page(divs: seq<Tile>, notice: Notice)

  /** validate_on_submit of the older Wordle form: a post whose text is not
      blank and is five characters long. */
  predicate Submitted(request: Request)
  {
    request.Post? && MainWordleFormErrors(request.guess) == []
  }

  /** The message flashed for a guess outside the word list. */
  function Rejection(guess: string): (m: string)
    ensures |m| == |guess| + 17 && m[..|guess|] == guess
  {
    guess + " is not accepted!"
  }

  /** The board shown for a saved game without playing anything: a Wordle
      game built only for its empty board recolours the stored guesses of
      rounds 1 .. round with round1_data, round2_data and, for rows 3 to 5,
      round3_data (ColourRows); the record is only read. */
  method RebuildGrid(data: WordleData) returns (divs: seq<Tile>)
    requires data.WellFormed()
    ensures divs == Grid(data.answer, data.Guesses())
  {
    var tempWordle := new Wordle("GUESS");
    divs := tempWordle.gameStart;
    GridOfNoGuesses(data.answer);
    assert data.Guesses()[..0] == [];
    divs := ColourRows(tempWordle, [1, 2, 3, 3, 3], data.answer, data.Guesses(), 0, divs);
  }

  /** A busy record passing the record invariant has a round left. */
  lemma BusyHasRoundLeft(data: WordleData)
    requires data.Valid() && data.gameState == Busy
    ensures data.round < 5
  {
    assert |data.Guesses()| < 5;
  }

  /** The notice of an accepted guess: won, lost or neither. */
  function Outcome(state: GameState): (n: Notice)
    ensures n == GameWin <==> state == Win
    ensures n == GameLoss <==> state == Loss
    ensures n == Plain <==> state == Busy
  {
    match state
    case Win => GameWin
    case Loss => GameLoss
    case Busy => Plain
  }

  /** play_wordle: with no record, or a finished last game, a new game with
      the upper-cased `choice` as answer and the empty board; otherwise the
      active game goes on (ContinueGame). */
  method PlayWordle(userId: int, latest: WordleData?, request: Request, wordList: seq<string>, choice: string)
    returns (record: WordleData, page: Page)
    requires latest != null ==> latest.Valid()
    requires choice in wordList && forall w <- wordList :: |w| == 5
    modifies latest
    ensures record.Valid()
    ensures latest == null || old(latest.gameState) != Busy ==>
              && fresh(record)
              && record.userId == userId && record.answer == Upper(choice)
              && record.round == 0 && record.gameState == Busy && record.winRound == None
              && page == Page(EmptyGrid(), Plain)
    ensures latest != null && old(latest.gameState) != Busy ==> unchanged(latest)
    ensures latest != null && old(latest.gameState) == Busy ==>
              && record == latest
              && record.userId == old(latest.userId) && record.answer == old(latest.answer)
    ensures latest != null && old(latest.gameState) == Busy && Submitted(request) && request.guess in wordList ==>
              && record.round == old(latest.round) + 1
              && record.Guesses() == old(latest.Guesses()) + [Upper(request.guess)]
              && record.gameState == NextState(record.answer, old(latest.Guesses()), Upper(request.guess))
              && record.winRound == NextWinRound(record.answer, old(latest.Guesses()), Upper(request.guess))
              && page == Page(Grid(record.answer, record.Guesses()), Outcome(record.gameState))
    ensures latest != null && old(latest.gameState) == Busy && Submitted(request) && request.guess !in wordList ==>
              && unchanged(latest)
              && page == Page(Grid(record.answer, record.Guesses()), NotAccepted(Rejection(request.guess)))
    ensures latest != null && old(latest.gameState) == Busy && !Submitted(request) ==>
              && unchanged(latest)
              && page == Page(Grid(record.answer, record.Guesses()), Plain)
  {
    UpperIdempotent(choice);
    if latest == null {
      // No games played yet: start a new game
      var answerGame := new Wordle(choice);
      var boardGame := new Wordle(choice);
      record := AddNewWordle(userId, answerGame.answer);
      page := Page(boardGame.gameStart, Plain);
      return;
    }
    if StateName(latest.gameState) in ["win", "loss"] {
      // Last game finished: start a new game
      var newWordle := new Wordle(choice);
      var divs := newWordle.StartWordle();
      record := AddNewWordle(userId, newWordle.answer);
      page := Page(divs, Plain);
      return;
    }
    // There is an active game
    record := latest;
    page := ContinueGame(latest, request, wordList);
  }

  /** The active-game part of play_wordle. A submitted guess in the word list
      is played (the same steps as play_wordle_game); a submitted guess
      outside it is flashed back and the saved board shown; anything else
      shows the saved board. The word list is compared with the text as
      typed, the answer with its upper-cased form. */
  method ContinueGame(latest: WordleData, request: Request, wordList: seq<string>) returns (page: Page)
    requires latest.Valid() && latest.gameState == Busy
    requires forall w <- wordList :: |w| == 5
    modifies latest
    ensures latest.Valid()
    ensures latest.userId == old(latest.userId) && latest.answer == old(latest.answer)
    ensures Submitted(request) && request.guess in wordList ==>
              && latest.round == old(latest.round) + 1
              && latest.Guesses() == old(latest.Guesses()) + [Upper(request.guess)]
              && latest.gameState == NextState(latest.answer, old(latest.Guesses()), Upper(request.guess))
              && latest.winRound == NextWinRound(latest.answer, old(latest.Guesses()), Upper(request.guess))
              && page == Page(Grid(latest.answer, latest.Guesses()), Outcome(latest.gameState))
    ensures Submitted(request) && request.guess !in wordList ==>
              && unchanged(latest)
              && page == Page(Grid(latest.answer, latest.Guesses()), NotAccepted(Rejection(request.guess)))
    ensures !Submitted(request) ==>
              && unchanged(latest)
              && page == Page(Grid(latest.answer, latest.Guesses()), Plain)
  {
    if Submitted(request) && request.guess in wordList {
      BusyHasRoundLeft(latest);
      var state, divs := PlayWordleGame(latest, request.guess);
      page := Page(divs, Outcome(state));
    } else {
      // A guess that is not valid is flashed back; otherwise the saved game is loaded
      var divs := RebuildGrid(latest);
      page := Page(divs, if Submitted(request) then NotAccepted(Rejection(request.guess)) else Plain);
    }
  }

  /** The guess of the older countries form, passed on as an int: 1 is right
      when the second country is at least as large, 0 when it is at most as
      large. */
  predicate MainGuessCorrect(guess: int, size1: int, size2: int)
  {
    (guess == 1 && size2 >= size1) || (guess == 0 && size2 <= size1)
  }

  /** The two countries forms offer the same labels, and the value each
      offers for a label is right in exactly the same cases. */
  lemma ChoicesAgree(size1: int, size2: int)
    ensures |CountryChoices| == |MainCountryChoices| == 2
    ensures forall k :: 0 <= k < 2 ==>
              && CountryChoices[k].1 == MainCountryChoices[k].1
              && (GuessCorrect(CountryChoices[k].0, size1, size2) <==> MainGuessCorrect(MainCountryChoices[k].0, size1, size2))
  {
  }

  /** The scoring steps of countries in main.py: the streak rule on the 1/0
      guess against the two sizes, each change committed at once. Only the
      streak and the record change. */
  method ScoreGuess(data: CountriesData, guess: int, size1: int, size2: int)
    modifies data`countryStreak, data`countryRecord
    ensures Score(data.countryStreak, data.countryRecord)
            == Scored(Score(old(data.countryStreak), old(data.countryRecord)), MainGuessCorrect(guess, size1, size2))
    ensures old(data.Valid()) ==> data.Valid()
  {
    ScoredKeepsRecord(Score(data.countryStreak, data.countryRecord), MainGuessCorrect(guess, size1, size2));
    if guess == 1 && size2 >= size1 {
      data.countryStreak := data.countryStreak + 1;
      if data.countryStreak > data.countryRecord {
        data.countryRecord := data.countryStreak;
      }
    } else if guess == 0 && size2 <= size1 {
      data.countryStreak := data.countryStreak + 1;
      if data.countryStreak > data.countryRecord {
        data.countryRecord := data.countryStreak;
      }
    } else {
      data.countryStreak := 0;
    }
  }

  /** The redraw loop of countries in main.py: starting from the first draw,
      draw again from `draws` (the values random.randint(0, 44) returns, in
      order) while the draw equals `country1`. */
  method RedrawCountry(country1: int, draws: seq<int>) returns (country2: int)
    requires exists i :: 0 <= i < |draws| && draws[i] != country1
    requires forall d <- draws :: 0 <= d <= 44
    ensures country2 == FirstDifferent(draws, country1)
    ensures country2 != country1 && 0 <= country2 <= 44
  {
    country2 := draws[0];
    var next := 1;
    while country2 == country1
      invariant 1 <= next <= |draws|
      invariant forall j :: 0 <= j < next - 1 ==> draws[j] == country1
      invariant country2 == draws[next - 1]
      decreases |draws| - next
    {
      ghost var k :| 0 <= k < |draws| && draws[k] != country1;
      assert next <= k;
      country2 := draws[next];
      next := next + 1;
    }
    FirstDifferentUnique(draws, country1, next - 1);
    FirstDifferentInRange(draws, country1, 0, 44);
  }

  /** The scoring part of countries in main.py (a submitted form), as
      written. `data` is the saved row; `shown` is the country2 the page
      renders. The guess is scored, country2 moves to country1 and a first
      draw becomes country2, and all of that is committed. The redraw loop
      runs after the last commit, so a redrawn country is only shown: when
      the first draw repeats country1, the saved row keeps the same country
      on both sides. The record of main.py names its columns country1 and
      country2; they are the fields countryOld and countryNew of
      CountriesData. */
  method Countries(data: CountriesData, guess: int, size1: int, size2: int, draws: seq<int>)
    returns (shown: int)
    requires exists i :: 0 <= i < |draws| && draws[i] != data.countryNew
    requires forall d <- draws :: 0 <= d <= 44
    modifies data
    ensures data.userId == old(data.userId)
    ensures Score(data.countryStreak, data.countryRecord)
            == Scored(Score(old(data.countryStreak), old(data.countryRecord)), MainGuessCorrect(guess, size1, size2))
    ensures data.countryOld == old(data.countryNew) && data.countryNew == draws[0]
    ensures shown == FirstDifferent(draws, old(data.countryNew))
    ensures shown != data.countryOld && 0 <= shown <= 44
    ensures data.countryNew == data.countryOld <==> shown != data.countryNew
    ensures old(data.Valid()) ==> data.Valid()
  {
    ScoreGuess(data, guess, size1, size2);
    data.countryOld := data.countryNew;
    data.countryNew := draws[0];
    // Committed; the redraw below is not
    shown := RedrawCountry(data.countryOld, draws);
    assert draws[0] != data.countryOld ==> FirstDifferent(draws, data.countryOld) == draws[0];
  }

  /** The scoring part of countries as intended: the same steps, with the
      redrawn country committed as country2, as evaluate_countries_game in
      flasktest/games/utils.py does. */
  method CountriesRedrawSaved(data: CountriesData, guess: int, size1: int, size2: int, draws: seq<int>)
    requires exists i :: 0 <= i < |draws| && draws[i] != data.countryNew
    requires forall d <- draws :: 0 <= d <= 44
    modifies data
    ensures data.userId == old(data.userId)
    ensures Score(data.countryStreak, data.countryRecord)
            == Scored(Score(old(data.countryStreak), old(data.countryRecord)), MainGuessCorrect(guess, size1, size2))
    ensures data.countryOld == old(data.countryNew)
    ensures data.countryNew == FirstDifferent(draws, old(data.countryNew))
    ensures data.countryNew != data.countryOld && 0 <= data.countryNew <= 44
    ensures old(data.Valid()) ==> data.Valid()
  {
    ScoreGuess(data, guess, size1, size2);
    data.countryOld := data.countryNew;
    data.countryNew := RedrawCountry(data.countryOld, draws);
  }

  /** A saved row whose country2 is 7, and draws 7, then 12: the page shows
      12, but the saved row holds 7 as both country1 and country2. */
  method FirstDrawCollision(data: CountriesData, guess: int, size1: int, size2: int) returns (shown: int)
    requires data.countryNew == 7
    modifies data
    ensures data.countryOld == 7 && data.countryNew == 7 && shown == 12
  {
    assert [7, 12][1] != 7;
    FirstDifferentUnique([7, 12], 7, 1);
    shown := Countries(data, guess, size1, size2, [7, 12]);
  }
}
