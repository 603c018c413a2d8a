/**
 * The reload (GET) path of the Wordle route in flasktest/games/routes.py.
 * To redraw the board of an active game it fetches the last guess and plays
 * it again through play_wordle_game, which stores it as a further guess. The
 * as-written path is modelled by ReloadByReplay; ReloadByRebuild is the
 * redraw the route evidently meant, the one main.py performs.
 */
module GamesRoutes {
  import opened Text
  import opened WordleImp
  import opened Models
  import MainApp

  /** What a reload ends in: the request fails (the last guess is None and
      play_wordle_game upper-cases it), or the board is drawn. */
  datatype Reload = Crashed | Replayed(state: GameState, divs: seq<Tile>)

  /** The reload path as written: get_last_wordle_guess, then
      play_wordle_game with that guess. Before any guess it fails; after one
      it plays the last guess once more, so each reload uses up a round. */
  method ReloadByReplay(data: WordleData) returns (reload: Reload)
    requires data.Valid() && data.gameState == Busy
    modifies data
    ensures reload == Crashed <==> old(data.round) == 0
    ensures reload == Crashed ==> unchanged(data)
    ensures old(data.round) >= 1 ==>
              && data.Valid()
              && data.round == old(data.round) + 1
              && data.Guesses() == old(data.Guesses()) + [old(data.Guesses())[old(data.round) - 1]]
              && data.gameState == (if old(data.round) == 4 then Loss else Busy)
    ensures old(data.round) >= 1 ==> reload == Replayed(data.gameState, Grid(data.answer, data.Guesses()))
  {
    var lastWordleGuess := GetLastWordleGuess(data);
    LastGuessOfValidRecord(data);
    if lastWordleGuess == None {
      return Crashed;
    }
    ghost var before := data.Guesses();
    assert before[data.round - 1] in before;
    var gameState, wordleDivs := PlayWordleGame(data, lastWordleGuess.value);
    reload := Replayed(gameState, wordleDivs);
  }

  /** A game with one wrong guess that is only reloaded four times is lost:
      the reloads alone play the guess in rounds 2 to 5. */
  method ReloadsLoseGame() returns (state: GameState)
    ensures state == Loss
  {
    var data := AddNewWordle(7, "CRANE");
    assert Upper("CRANE") == "CRANE";
    assert Upper("SLATE") == "SLATE";
    var _, _ := PlayWordleGame(data, "SLATE");
    assert data.Guesses() == ["SLATE"];
    var r1 := ReloadByReplay(data);
    var r2 := ReloadByReplay(data);
    var r3 := ReloadByReplay(data);
    var r4 := ReloadByReplay(data);
    state := data.gameState;
  }

  /** The reload as intended: the board of the stored guesses and the saved
      game state, with the record left as it is (the method may change
      nothing that exists). */
  method ReloadByRebuild(data: WordleData) returns (state: GameState, divs: seq<Tile>)
    requires data.Valid()
    ensures state == data.gameState
    ensures divs == Grid(data.answer, data.Guesses())
  {
    divs := MainApp.RebuildGrid(data);
    state := data.gameState;
  }

  /** Reloading as intended any number of times gives the same page each
      time, whatever the round. */
  method RebuildTwice(data: WordleData) returns (same: bool)
    requires data.Valid()
    ensures same
  {
    var s1, d1 := ReloadByRebuild(data);
    var s2, d2 := ReloadByRebuild(data);
    same := s1 == s2 && d1 == d2;
  }
}
