/**
 * The countries game of flasktest/games/utils.py (evaluate_countries_game)
 * and the streak rule it shares with the countries route of main.py: a right
 * guess extends the streak and may raise the record, a wrong one resets the
 * streak, and the country on the right moves to the left while a new one is
 * drawn until it differs.
 */
module GamesUtils {
  import opened Models

  /** The streak and the best streak of a player. */
  datatype Score = Score(streak: int, record: int)

  /** A score that can occur: neither part negative, the streak within the record. */
  predicate Sound(s: Score)
  {
    0 <= s.streak <= s.record
  }

  /** The score after one guess: a right guess adds one to the streak and
      raises the record to the streak when the streak passes it; a wrong
      guess resets the streak and keeps the record. */
  function Scored(s: Score, correct: bool): (r: Score)
  {
    if correct then
      var streak := s.streak + 1;
      Score(streak, if streak > s.record then streak else s.record)
    else Score(0, s.record)
  }

  /** The record never goes down, a sound score stays sound, and after a
      right guess the record is the larger of the old record and the new
      streak. */
  lemma ScoredKeepsRecord(s: Score, correct: bool)
    ensures Scored(s, correct).record >= s.record
    ensures Sound(s) ==> Sound(Scored(s, correct))
    ensures correct ==> Scored(s, correct).streak == s.streak + 1
    ensures correct ==> Scored(s, correct).record == Max(s.record, s.streak + 1)
    ensures !correct ==> Scored(s, correct) == Score(0, s.record)
  {
  }

  function Max(a: int, b: int): (m: int)
    ensures m >= a && m >= b && (m == a || m == b)
  {
    if a >= b then a else b
  }

  /** The scores after each guess of a sequence of outcomes, folded left. */
  function ScoredAll(s: Score, outcomes: seq<bool>): (r: Score)
    decreases |outcomes|
  {
    if outcomes == [] then s
    else ScoredAll(Scored(s, outcomes[0]), outcomes[1..])
  }

  /** The longest run of right guesses at the end of `outcomes`, on top of `streak`. */
  function BestRun(streak: int, outcomes: seq<bool>): (best: int)
    ensures best >= streak
    decreases |outcomes|
  {
    if outcomes == [] then streak
    else
      var next := if outcomes[0] then streak + 1 else 0;
      Max(streak, BestRun(next, outcomes[1..]))
  }

  /** Over any sequence of guesses the record ends as the larger of the
      starting record and the best streak reached on the way: the record is
      exactly the best streak ever held. */
  lemma {:induction false} RecordIsBestStreak(s: Score, outcomes: seq<bool>)
    requires Sound(s)
    ensures Sound(ScoredAll(s, outcomes))
    ensures ScoredAll(s, outcomes).record == Max(s.record, BestRun(s.streak, outcomes))
    decreases |outcomes|
  {
    if outcomes != [] {
      var next := Scored(s, outcomes[0]);
      ScoredKeepsRecord(s, outcomes[0]);
      RecordIsBestStreak(next, outcomes[1..]);
    }
  }

  /** The guess of flasktest/games/utils.py, which the route passes on as the
      chosen string: "Larger" is right when the new country is at least as
      large, "Smaller" when it is at most as large. */
  predicate GuessCorrect(guess: string, sizeOld: int, sizeNew: int)
  {
    || (guess == "Larger" && sizeNew >= sizeOld)
    || (guess == "Smaller" && sizeNew <= sizeOld)
  }

  /** Two countries of the same size make both answers right; otherwise
      exactly one of them is. No other string is ever right. */
  lemma GuessRule(sizeOld: int, sizeNew: int, guess: string)
    ensures sizeNew == sizeOld ==> GuessCorrect("Larger", sizeOld, sizeNew) && GuessCorrect("Smaller", sizeOld, sizeNew)
    ensures sizeNew != sizeOld ==> (GuessCorrect("Larger", sizeOld, sizeNew) != GuessCorrect("Smaller", sizeOld, sizeNew))
    ensures guess != "Larger" && guess != "Smaller" ==> !GuessCorrect(guess, sizeOld, sizeNew)
  {
  }

  /** The first draw that differs from `x`: where a loop that redraws while
      the value equals `x` stops. */
  function FirstDifferent(draws: seq<int>, x: int): (r: int)
    requires exists i :: 0 <= i < |draws| && draws[i] != x
    ensures r != x
    ensures exists i :: 0 <= i < |draws| && draws[i] == r && forall j :: 0 <= j < i ==> draws[j] == x
    decreases |draws|
  {
    if draws[0] != x then
      draws[0]
    else
      var k :| 0 <= k < |draws| && draws[k] != x;
      assert 0 <= k - 1 < |draws[1..]| && draws[1..][k - 1] != x;
      var r := FirstDifferent(draws[1..], x);
      var i :| 0 <= i < |draws[1..]| && draws[1..][i] == r && forall j :: 0 <= j < i ==> draws[1..][j] == x;
      assert draws[i + 1] == r && forall j :: 0 <= j < i + 1 ==> draws[j] == x;
      r
  }

  /** When every draw lies in [lo, hi], so does the first one that differs. */
  lemma FirstDifferentInRange(draws: seq<int>, x: int, lo: int, hi: int)
    requires exists i :: 0 <= i < |draws| && draws[i] != x
    requires forall d <- draws :: lo <= d <= hi
    ensures lo <= FirstDifferent(draws, x) <= hi
  {
    var r := FirstDifferent(draws, x);
    var i :| 0 <= i < |draws| && draws[i] == r && forall j :: 0 <= j < i ==> draws[j] == x;
    assert draws[i] in draws;
  }

  /** evaluate_countries_game: scores the guess against the two sizes (the
      country lookups are the parameters sizeOld and sizeNew), moves the new
      country to the old place and redraws the new one from `draws` (the
      values random.randint(1, 44) returns, in order) until it differs. */
  method EvaluateCountriesGame(data: CountriesData, guess: string, sizeOld: int, sizeNew: int, draws: seq<int>)
    requires exists i :: 0 <= i < |draws| && draws[i] != data.countryNew
    requires forall d <- draws :: 1 <= d <= 44
    modifies data
    ensures data.userId == old(data.userId)
    ensures Score(data.countryStreak, data.countryRecord)
            == Scored(Score(old(data.countryStreak), old(data.countryRecord)), GuessCorrect(guess, sizeOld, sizeNew))
    ensures data.countryOld == old(data.countryNew)
    ensures data.countryNew == FirstDifferent(draws, old(data.countryNew))
    ensures data.countryNew != data.countryOld && 1 <= data.countryNew <= 44
    ensures old(data.Valid()) ==> data.Valid()
  {
    ScoredKeepsRecord(Score(data.countryStreak, data.countryRecord), GuessCorrect(guess, sizeOld, sizeNew));
    if guess == "Larger" && sizeNew >= sizeOld {
      // User guessed correctly
      data.countryStreak := data.countryStreak + 1;
      if data.countryStreak > data.countryRecord {
        data.countryRecord := data.countryStreak;
      }
    } else if guess == "Smaller" && sizeNew <= sizeOld {
      // User guessed correctly
      data.countryStreak := data.countryStreak + 1;
      if data.countryStreak > data.countryRecord {
        data.countryRecord := data.countryStreak;
      }
    } else {
      // User guessed incorrectly
      data.countryStreak := 0;
    }

    data.countryOld := data.countryNew;
    ghost var score := Score(data.countryStreak, data.countryRecord);
    var next := 0;
    while data.countryNew == data.countryOld
      invariant 0 <= next <= |draws|
      invariant data.userId == old(data.userId) && Score(data.countryStreak, data.countryRecord) == score
      invariant data.countryOld == old(data.countryNew)
      invariant forall j :: 0 <= j < next - 1 ==> draws[j] == data.countryOld
      invariant data.countryNew == data.countryOld ==> forall j :: 0 <= j < next ==> draws[j] == data.countryOld
      invariant data.countryNew != data.countryOld ==> 0 < next && data.countryNew == draws[next - 1]
      decreases |draws| - next
    {
      ghost var k :| 0 <= k < |draws| && draws[k] != data.countryOld;
      assert next <= k;
      data.countryNew := draws[next];
      next := next + 1;
    }
    FirstDifferentUnique(draws, data.countryOld, next - 1);
    FirstDifferentInRange(draws, data.countryOld, 1, 44);
  }

  /** The first differing draw is the one at any index where all earlier draws equal `x`. */
  lemma FirstDifferentUnique(draws: seq<int>, x: int, i: int)
    requires 0 <= i < |draws| && draws[i] != x
    requires forall j :: 0 <= j < i ==> draws[j] == x
    ensures FirstDifferent(draws, x) == draws[i]
  {
    var r := FirstDifferent(draws, x);
    var k :| 0 <= k < |draws| && draws[k] == r && forall j :: 0 <= j < k ==> draws[j] == x;
    if k < i {
      assert false;
    } else if i < k {
      assert false;
    }
  }
}
