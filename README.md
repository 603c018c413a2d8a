# Wordle engine of the Flask games site, in Dafny

This project models the game logic of a small Flask site.

The core is the Wordle engine:

- **Tile colouring.** The `Wordle` class colours each letter of a guess: green on a positional match, yellow when the letter occurs anywhere else in the answer (with no deduction for repeated letters), grey otherwise.
- **The Wordle record.** This is the per-game database record: answer, round 0..5, five guess columns, winning round and game state. It is played one guess at a time by `play_wordle_game`, and the 25-tile board is rebuilt from the stored guesses each time.
- **The `play_wordle` route of `main.py`.** It starts a new game, accepts a guess, rejects a guess outside the word list, or redraws a saved game.

Around the engine sit:

- the streak and record rule of the countries game, in both copies (`evaluate_countries_game` and the `countries` route of `main.py`), with the redraw loop for the next country;
- the construction of the numbers board: 25 boxes, the numbers 2..9 each in its own box class, then shuffled;
- the form validators: `UsernameCheck`, `WordleWordCheck`, and the DataRequired / Length / EqualTo chains of the Wordle and register forms, plus the choices of the countries forms.

How the code is shaped:

- Code that mutates in the source is imperative here:
  - `Wordle` and `WordleData` are classes whose methods update their fields;
  - the colouring, the country redraw and the numbers board are loops;
  - the shuffle works in place on an array.
- Validators and rules are functions, with lemmas stating what they mean.
- Randomness becomes parameters or a nondeterministic choice:
  - `random.choice` is the parameter `choice`;
  - the values of `random.randint` are a stream `draws`;
  - the swap partner of `random.shuffle` is chosen with `:|`.
- Country sizes and the word list are parameters.

Modules: `Text` (Option, ASCII case mapping, blank test), `WordleImp`, `Models`, `GamesUtils`, `Forms`, `NumbersImp`, `MainApp`, `GamesRoutes`.

Two places where the comments and the code differ:

- The doc comment of `create_numbers_divs` speaks of the numbers 1-9, but the code places 2..9. The model follows the code.
- The forms route compares the lower-cased guess with the word list, while `main.py` compares the guess as typed (`main.py:471`). Each copy is modelled as written.

## Model

| member | source | states |
|---|---|---|
| WordleImp.ColourRule | flasktest/imports/wordle_imp.py:49-56 | one tile per guess letter, carrying that letter, in order; green iff the letter matches the answer at its position; yellow iff it does not match there but occurs in the answer; grey iff it does not occur in the answer |
| WordleImp.NoDuplicateDeduction | flasktest/imports/wordle_imp.py:53-54 | two equal guess letters that both miss their own position get the same tile colour: repeated letters are all marked |
| WordleImp.ColourGuess | flasktest/imports/wordle_imp.py:48-56 | the append loop of round1_data..round5_data produces exactly the colour rule's row |
| WordleImp.CssDistinct | flasktest/imports/wordle_imp.py:25-27 | grey, yellow and green are rendered with three different CSS values |
| WordleImp.Wordle.constructor | flasktest/imports/wordle_imp.py:16-32 | the answer is stored upper-cased, the guesses are empty, the round is 0, and game_start is 25 [".", grey] tiles |
| WordleImp.Wordle.StartWordle | flasktest/imports/wordle_imp.py:38-42 | returns the 25 empty tiles of game_start |
| WordleImp.Wordle.Round1Data | flasktest/imports/wordle_imp.py:44-59 | returns the colour rule's row for (guess, answer argument); round goes up by exactly one; only guess1 is set |
| WordleImp.Wordle.Round2Data | flasktest/imports/wordle_imp.py:61-76 | the same row as round1_data; round goes up by one; only guess2 is set |
| WordleImp.Wordle.Round3Data | flasktest/imports/wordle_imp.py:78-93 | the same row; round goes up by one; only guess3 is set |
| WordleImp.Wordle.Round4Data | flasktest/imports/wordle_imp.py:95-110 | the same row; round goes up by one; only guess4 is set |
| WordleImp.Wordle.Round5Data | flasktest/imports/wordle_imp.py:112-127 | the same row; round goes up by one; only guess5 is set |
| WordleImp.GridTiles | flasktest/models.py:252-261 | on the board, tile j of row k is tile j of guess k coloured against the answer, and every slot after the last guess is an empty tile |
| WordleImp.GridExtend | flasktest/models.py:285-291 | slice-assigning the next guess's row at [5k:5k+5] into the board of k guesses gives the board of the k+1 guesses |
| WordleImp.GridOfNoGuesses | flasktest/models.py:240-241 | the board of no guesses is the empty game_start board |
| Models.StateName | main.py:456 | the stored game state is one of "busy", "win" and "loss", and it is "win" or "loss" exactly when the game is over |
| Models.WordleData.constructor | flasktest/models.py:49-63 | a record with the given user and answer, round 0, state busy, no guesses, no winning round |
| Models.WordleData.Store | flasktest/models.py:262-263 | stores the guess in the column of round r+1 and sets the round to r+1; earlier guesses are kept, later columns untouched |
| Models.WordleData.Play | flasktest/models.py:244-314 | the record side of play_wordle_game. From round r<5 the guess is appended and the round becomes r+1. A matching guess gives state win and win_round r+1. A miss in round 4 gives loss and -1. A miss earlier returns busy and leaves state and win_round alone. At round 5 the round and guesses stay unchanged, but a match still marks the record won |
| Models.PlayKeepsConsistent | flasktest/models.py:244-269 | after a guess in a busy, consistent game the record stays consistent: won exactly in the round of the first matching guess, lost exactly after five misses, and all stored words upper-case |
| Models.AddNewWordle | flasktest/models.py:185-196 | a fresh record: round 0, busy, the given answer, every guess unset; it meets the record invariant when the answer is an upper-case five-letter word |
| Models.GetLastWordleGuess | flasktest/models.py:212-229 | None iff guess1..guess4 are all unset; otherwise the set guess with the highest number among guess4..guess1 (guess5 is never returned) |
| Models.LastGuessOfValidRecord | flasktest/models.py:212-229 | on a valid record: round 0 gives None, rounds 1..4 give the guess of the current round, and round 5 gives the fourth guess |
| Models.ColourRow | flasktest/models.py:285-291 | colouring word k with one roundN_data call and slice-assigning it into the board of words 0..k-1 gives the board of words 0..k |
| Models.ColourRows | flasktest/models.py:240-310 | colouring rows k..n-1 of n words in order, each by the round_data method listed for its row, into the board of the first k words gives the board of all n words |
| Models.ReplayBoard | flasktest/models.py:240-310 | a fresh Wordle game colours rows 1..r from the stored guesses and row r+1 from the new guess, and later rows stay empty; at round 5 the board stays empty |
| Models.PlayWordleGame | flasktest/models.py:232-317 | upper-cases the guess and returns the board of all stored guesses plus it, together with Play's state and record changes; a valid busy record stays valid |
| GamesUtils.ScoredKeepsRecord | flasktest/games/utils.py:50-66 | the record never decreases. A right guess makes the streak one longer and the record max(old record, new streak). A wrong guess zeroes the streak and keeps the record. A sound score (0 <= streak <= record) stays sound |
| GamesUtils.RecordIsBestStreak | flasktest/games/utils.py:50-66 | over any run of guesses the record ends as the larger of the starting record and the longest streak reached |
| GamesUtils.GuessRule | flasktest/games/utils.py:52-62 | on equal sizes both "Larger" and "Smaller" are right; on unequal sizes exactly one is; any other string is never right |
| GamesUtils.FirstDifferent | flasktest/games/utils.py:68-70 | the redraw loop's result differs from the old country and is the first draw that does |
| GamesUtils.FirstDifferentInRange | flasktest/games/utils.py:69-70 | when every draw is in [lo, hi], the redrawn country is too |
| GamesUtils.EvaluateCountriesGame | flasktest/games/utils.py:42-74 | the score is updated by the streak rule on the guess against the two sizes; country_old takes the old country_new; country_new becomes the first draw in [1,44] that differs from it; a sound score stays sound |
| Forms.MessageOr | flasktest/imports/forms_imp.py:18-20 | a validator keeps its given message, or takes its default when the message is empty |
| Forms.Present | flasktest/imports/forms_imp.py:25 | the banned characters found in the username: every one is a banned character in the name, and every banned character in the name is found |
| Forms.UsernameCheck | flasktest/imports/forms_imp.py:22-26 | fails, with its message, iff the lower-cased name equals a lower-cased banned word or any character of the banned-character string occurs in it |
| Forms.RegisterUsernameRule | flasktest/imports/forms_imp.py:8-9 | with the register lists, a name of ASCII letters and digits fails only when it is a banned word; a name with a space, a dot or an at sign always fails |
| Forms.BannedWordsAnyCase | flasktest/imports/forms_imp.py:23-24 | every spelling of root, admin, sys or administrator is refused |
| Forms.UsernameCaseInsensitive | flasktest/imports/forms_imp.py:22-26 | upper-casing a name never changes the verdict |
| Forms.WordleWordCheck | flasktest/imports/forms_imp.py:37-39 | passes iff the lower-cased input is in the allowed words; otherwise it fails with its message |
| Forms.WordleWordCheckCaseInsensitive | flasktest/games/forms.py:16-18 | the input and its upper-cased form get the same verdict: the check ignores the case typed |
| Forms.Messages | flasktest/imports/forms_imp.py:22-26 | the messages of the failed validators: every message comes from a failed validator, every failed validator's message is there, and the list is empty iff every validator passes |
| Forms.FieldErrors | flasktest/imports/forms_imp.py:54-61 | DataRequired, then Length, then the custom checks. A blank value gives only the required message. No errors iff the value is non-blank, in bounds and passes every check. A bad length reports the length message first. On a non-blank value every failed custom check's message is reported, and every reported message is the required message, the length message or a failed check's message |
| Forms.WordleFormErrors | flasktest/imports/forms_imp.py:198-204 | the guess is accepted iff it is non-blank, exactly 5 characters long and its lower-cased form is in the word list |
| Forms.MainWordleFormErrors | imports/forms_imp.py:119-122 | the older form accepts iff the guess is non-blank and exactly 5 characters long. A blank guess gets only "Please make a guess!". A non-blank guess of another length gets only "5 letters only!" |
| Forms.UsernameErrors | flasktest/imports/forms_imp.py:52-61 | the username is accepted iff it is non-blank, 1..50 characters long, not a banned word and free of banned characters; a non-blank banned word or a name holding a banned character reports the UsernameCheck message |
| Forms.PasswordErrors | flasktest/imports/forms_imp.py:62-66 | the password is accepted iff it is non-blank and 8..24 characters long |
| Forms.EqualToPassword | flasktest/imports/forms_imp.py:72 | passes iff the re-typed password equals the password |
| Forms.Password2Errors | flasktest/imports/forms_imp.py:67-72 | the re-typed password is accepted iff it is non-blank, 8..24 characters long and equal to the password; a non-blank one that differs reports "Field must be equal to password." |
| Forms.RegisterPasswordsAgree | flasktest/imports/forms_imp.py:62-72 | a registration whose two password fields both pass has two equal passwords of 8..24 characters |
| NumbersImp.Layout | flasktest/imports/numbers_imp.py:14-19 | the board before the shuffle has 25 entries |
| NumbersImp.LayoutContents | flasktest/imports/numbers_imp.py:12-19 | each number 2..9 occurs exactly once, in its own box class boxB..boxI; no other number occurs; exactly 17 empty boxes of class boxEmpty |
| NumbersImp.Shuffle | flasktest/imports/numbers_imp.py:20 | the in-place shuffle keeps the multiset of boxes |
| NumbersImp.CreateNumbersDivs | flasktest/imports/numbers_imp.py:9-21 | a fresh 25-entry array holding a permutation of the layout |
| MainApp.Rejection | main.py:610 | the flash message begins with the guess as typed |
| MainApp.RebuildGrid | main.py:671-728 | the reload board: rows 1..round recoloured from the stored guesses (rows 3..5 with round3_data), later rows empty, and the record only read |
| MainApp.BusyHasRoundLeft | main.py:469-607 | a busy record that meets the record invariant has a round left, so the accept path never needs a round-5 branch |
| MainApp.Outcome | main.py:595-607 | the page shows game_win exactly for a won game, game_loss exactly for a lost one, and neither while busy |
| MainApp.PlayWordle | main.py:437-728 | no record, or a finished last game: a fresh busy round-0 record whose answer is the upper-cased random word, shown on the empty board, and a finished record is left unchanged. A busy record is the one returned, with the same user and answer. A submitted guess in the word list is played: the guesses grow by the upper-cased guess, state and win_round follow the win/loss rule, and the board shows every guess. A submitted guess outside the list changes nothing and is flashed back with the saved board. Any other request changes nothing and shows the saved board. In every case the returned record meets the record invariant |
| MainApp.ContinueGame | main.py:469-728 | a submitted guess in the word list is stored upper-cased as the next round's guess; the state and win_round follow the win/loss rule and the board shows every guess. A submitted guess outside the list changes nothing and flashes "<guess> is not accepted!" with the saved board. Any other request changes nothing and shows the saved board |
| MainApp.ChoicesAgree | imports/forms_imp.py:106-112 | the older countries form offers the same labels as the newer one, and the value 1/0 it sends is right in exactly the cases where "Larger"/"Smaller" is |
| MainApp.ScoreGuess | main.py:378-395 | the streak rule on guess 1/0 against size1/size2: a right guess adds one to the streak and lifts the record to it, a wrong one resets the streak; only the streak and the record change; a sound score stays sound |
| MainApp.RedrawCountry | main.py:398-401 | starting from the first draw, the loop ends on the first draw that differs from country1, which lies in [0,44] |
| MainApp.Countries | main.py:373-401 | as written: the score follows the streak rule; country1 takes the old country2; the saved country2 is the first draw; the page shows the first draw in [0,44] that differs from country1; the saved row has the same country on both sides exactly when the shown country is not the saved one; a sound score stays sound |
| MainApp.FirstDrawCollision | main.py:397-401 | a saved country2 of 7 with draws 7, then 12: the page shows 12 and the saved row holds 7 as both country1 and country2 |
| MainApp.CountriesRedrawSaved | main.py:373-401 | as intended: the same score and country1, and the saved country2 is the first draw in [0,44] that differs from country1, so the two saved countries always differ |
| GamesRoutes.ReloadByReplay | flasktest/games/routes.py:99-109 | the reload as written fails at round 0. At rounds 1..4 it stores the last guess again and advances the round, and the game is lost when that was round 4; the page shows the new state and the board of all stored guesses, the replayed one included |
| GamesRoutes.ReloadsLoseGame | flasktest/games/routes.py:101-103 | a busy game with one wrong guess that is only reloaded four times ends lost |
| GamesRoutes.ReloadByRebuild | main.py:671-728 | the intended reload: the board of the stored guesses and the saved state, with nothing changed |
| GamesRoutes.RebuildTwice | main.py:671-728 | the intended reload gives the same page every time it is repeated |

## Left out

- Persistence and rendering: the database session, `render_template`, `flash`, `session` and the template flags. A commit is "the fields now hold these values"; a flash is the `NotAccepted` notice.
- The duplicate `Wordle` class and `create_numbers_divs` in flasktest/games/utils.py:78-212: their text matches flasktest/imports/wordle_imp.py and flasktest/imports/numbers_imp.py, so each is modelled once.
- `start_new_wordle` (flasktest/models.py:199-209): the same steps as the no-record branch of `MainApp.PlayWordle`. It is used only by the dispatching games routes.
- `add_new_countries` (flasktest/models.py:169-181): only two random draws into a new record.
- The rest of flasktest/games/routes.py, other than its reload path: it only delegates.
- Aliasing of the board lists: in Python every empty tile is one shared list, and `wordle_divs` aliases `game_start`, so slice assignment also changes `game_start`. Boards here are values. The Wordle object is thrown away after each call, so nothing the pages show depends on the sharing.
- `str.upper`, `str.lower` and `str.strip`: modelled for ASCII only. No Unicode case mapping or whitespace is modelled.
- The word list, a CSV load, is a `seq<string>` parameter whose words all have five letters. The country sizes, pandas lookups, are integer parameters.
- `random.choice`, `random.randint` and `random.shuffle`:
  - the chosen word is a parameter;
  - the redraw loops read a finite stream of draws that is required to hold a value different from the old country, which leaves out a stream that never produces one;
  - the shuffle's swap partner is any index up to i, which leaves out the uniform distribution.
- The new-game branch of `main.py` calls `random.choice` twice, once for the answer and once for a game whose board is used. That board is empty whatever the word, so one `choice` serves both.
- MainApp.ContinueGame: the accepted-guess branch of `main.py` (469-607) repeats `play_wordle_game`'s steps inline and is modelled by calling `Models.PlayWordleGame`:
  - the tiles, stored guesses, round, state and winning round are the same;
  - in round 1, `main.py` colours against the Wordle object's upper-cased answer, which equals the stored answer under the record invariant;
  - `main.py` has no round-5 branch, which `MainApp.BusyHasRoundLeft` shows cannot be reached.
- The if-chains on the round in `play_wordle_game` and in the reload path of `main.py` write out one roundN_data call per row for each round. `Models.ColourRows` makes the same calls in the same order by recursion on the row index, given the list of roundN_data methods per row: 1..5 in `play_wordle_game`, and 1, 2, 3, 3, 3 in `main.py`.
- Models.PlayWordleGame colours the board before it updates the record, where the source checks for the win first. The board reads only the stored guesses and the answer, so the order changes nothing.
- WordleImp.ColourGuess and the roundN_data methods require the guess to be no longer than the answer. A longer guess makes the source raise an IndexError, which is not modelled. Every caller passes five-letter words.
- MainApp.Countries: as `main.py` is written, the redrawn country2 is shown but not stored, because the loop runs after the last commit and nothing commits before the return. The saved row keeps the first draw. `MainApp.CountriesRedrawSaved` is the version that stores the redrawn country, as `evaluate_countries_game` does; see "## Findings".
- `main.py` imports `Wordle` from imports/wordle_imp.py, which is not part of this model. Its routes are modelled with the `Wordle` class of flasktest/imports/wordle_imp.py, on the assumption that the two files hold the same class.
- The `SelectField` of the older countries form sends 1 or 0, which `main.py` converts with `int()`. `MainApp.Countries` takes the int.
- The email, login, reset and PUBG forms and their validators, CSRF, and the `wordle_wi` template variable.
- A validator `message` of None is treated like the empty message. Both select the default.

## Findings

| source | as written | input that shows it | evidently intended | confidence | as-written member | corrected member |
|---|---|---|---|---|---|---|
| flasktest/games/routes.py:99-103 | a GET of the Wordle page takes the last stored guess and plays it again through play_wordle_game, which stores it as the next round's guess. With no guess yet it passes None, and `None.upper()` fails | a busy game with answer CRANE and the single guess SLATE, reloaded four times: the reloads store SLATE in rounds 2-5 and the game is lost; a reload before the first guess fails | a reload redraws the board of the stored guesses and changes nothing, as the reload path of main.py:671-728 does | not executed; high | GamesRoutes.ReloadsLoseGame | GamesRoutes.ReloadByRebuild |
| main.py:397-401 | country2 gets a first draw and is committed; the redraw loop that makes it differ from country1 runs after that commit, and nothing commits before the page is returned, so the redrawn value is shown but never saved | a saved country2 of 7 and draws 7, then 12: the page shows 12, the saved row holds 7 as both country1 and country2, and at the next answer size1 == size2, so either answer is right | the redrawn country2 is committed, as flasktest/games/utils.py:68-72 does after its loop | not executed; medium (it relies on the request's session being discarded without a commit) | MainApp.FirstDrawCollision | MainApp.CountriesRedrawSaved |
