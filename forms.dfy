/**
 * The form validation of the games and the register page
 * (flasktest/imports/forms_imp.py, flasktest/games/forms.py and the older
 * imports/forms_imp.py that main.py uses): the two custom validators, the
 * DataRequired and Length bounds of the fields, and the choices of the
 * countries form. A validator either passes or fails with its message.
 */
module Forms {
  import opened Text

  datatype Check = Pass | Fail(message: string)

  /** A validator keeps the message it is given, or its default when the
      message is missing or empty. */
  function MessageOr(message: string, default: string): (m: string)
    ensures message != "" ==> m == message
    ensures message == "" ==> m == default
  {
    if message == "" then default else message
  }

  const UsernameDefault := "Please choose another username!"
  const WordDefault := "Word not accepted!"

  const BannedUsernameWords: seq<string> := ["root", "admin", "sys", "administrator"]

  /** The banned characters: the text of a regular expression, used as a
      plain list of characters. */
  const BannedUsernameChars: string := "^(?=.*[-+_!'@#$%^&*., ?])"

  /** The characters of `chars` that occur in `data`, in order and with
      repetitions (the list comprehension of UsernameCheck). */
  function Present(chars: string, data: string): (r: string)
    ensures forall x <- r :: x in chars && x in data
    ensures forall c <- chars :: c in data ==> c in r
    decreases |chars|
  {
    if chars == [] then []
    else
      var rest := Present(chars[1..], data);
      assert forall c <- chars[1..] :: c in chars;
      if chars[0] in data then [chars[0]] + rest else rest
  }

  /** The lower-cased username equals the lower-cased form of a banned word. */
  predicate BannedWord(data: string, bannedWords: seq<string>)
  {
    exists w <- bannedWords :: Lower(data) == Lower(w)
  }

  /** UsernameCheck.__call__: fails when the username is a banned word in any
      case, or when it contains any banned character. */
  function UsernameCheck(data: string, bannedWords: seq<string>, bannedChars: string, message: string): (r: Check)
    ensures r.Fail? ==> r.message == MessageOr(message, UsernameDefault)
    ensures r.Fail? <==> BannedWord(data, bannedWords) || exists c <- bannedChars :: c in data
  {
    if BannedWord(data, bannedWords) then Fail(MessageOr(message, UsernameDefault))
    else
      var present := Present(bannedChars, data);
      if |present| > 0 then
        assert present[0] in present;
        Fail(MessageOr(message, UsernameDefault))
      else Pass
  }

  predicate IsAsciiAlphanumeric(c: char)
  {
    'a' <= c <= 'z' || 'A' <= c <= 'Z' || '0' <= c <= '9'
  }

  /** With the register form's lists: every banned character is punctuation
      or a space, so a name of letters and digits is refused only when it is
      a banned word, and a space, a dot or an at sign always refuses it. */
  lemma RegisterUsernameRule(data: string, message: string)
    ensures (forall c <- data :: IsAsciiAlphanumeric(c)) ==>
              (UsernameCheck(data, BannedUsernameWords, BannedUsernameChars, message).Fail?
               <==> BannedWord(data, BannedUsernameWords))
    ensures ' ' in data || '.' in data || '@' in data ==>
              UsernameCheck(data, BannedUsernameWords, BannedUsernameChars, message).Fail?
  {
    assert forall c <- BannedUsernameChars :: !IsAsciiAlphanumeric(c);
    if ' ' in data {
      assert BannedUsernameChars[21] == ' ';
    } else if '.' in data {
      assert BannedUsernameChars[4] == '.';
    } else if '@' in data {
      assert BannedUsernameChars[12] == '@';
    }
  }

  /** The banned words are refused in every spelling: "Admin", "ROOT". */
  lemma BannedWordsAnyCase(data: string, message: string)
    requires Lower(data) in ["root", "admin", "sys", "administrator"]
    ensures UsernameCheck(data, BannedUsernameWords, BannedUsernameChars, message).Fail?
  {
    var w :| w in BannedUsernameWords && Lower(data) == w;
    LowerOfLowerWord(w);
  }

  /** The banned words are already lower-case. */
  lemma LowerOfLowerWord(w: string)
    requires w in ["root", "admin", "sys", "administrator"]
    ensures Lower(w) == w
  {
    assert forall i :: 0 <= i < |w| ==> IsLowerLetter(w[i]);
  }

  /** Upper-casing a username does not change the verdict of UsernameCheck
      on the register form's lists: the word test lower-cases the input and
      no banned character is a letter. */
  lemma UsernameCaseInsensitive(data: string, message: string)
    ensures UsernameCheck(Upper(data), BannedUsernameWords, BannedUsernameChars, message)
            == UsernameCheck(data, BannedUsernameWords, BannedUsernameChars, message)
  {
    LowerOfUpper(data);
    assert forall c <- BannedUsernameChars :: !IsLowerLetter(c) && !IsUpperLetter(c);
    forall c <- BannedUsernameChars
      ensures c in Upper(data) <==> c in data
    {
      if c in data {
        var i :| 0 <= i < |data| && data[i] == c;
        assert Upper(data)[i] == c;
      }
      if c in Upper(data) {
        var i :| 0 <= i < |data| && Upper(data)[i] == c;
        assert data[i] == c;
      }
    }
  }

  /** WordleWordCheck.__call__: fails unless the lower-cased input is one of
      the allowed words. */
  function WordleWordCheck(data: string, allowedWords: seq<string>, message: string): (r: Check)
    ensures r.Fail? ==> r.message == MessageOr(message, WordDefault)
    ensures r == Pass <==> Lower(data) in allowedWords
  {
    if !(Lower(data) in allowedWords) then Fail(MessageOr(message, WordDefault)) else Pass
  }

  /** The word check ignores the case of what was typed: the input and its
      upper-cased form get the same verdict. */
  lemma WordleWordCheckCaseInsensitive(data: string, allowedWords: seq<string>, message: string)
    ensures WordleWordCheck(Upper(data), allowedWords, message) == WordleWordCheck(data, allowedWords, message)
  {
    LowerOfUpper(data);
  }

  /** The messages of the failed checks, in order. */
  function Messages(checks: seq<Check>): (ms: seq<string>)
    ensures ms == [] <==> forall c <- checks :: c == Pass
    ensures forall m <- ms :: Fail(m) in checks
    ensures forall c <- checks :: c.Fail? ==> c.message in ms
    ensures |ms| <= |checks|
    decreases |checks|
  {
    if checks == [] then []
    else
      var rest := Messages(checks[1..]);
      assert forall c <- checks[1..] :: c in checks;
      assert forall c <- checks :: c == checks[0] || c in checks[1..];
      match checks[0]
      case Pass => rest
      case Fail(m) => assert checks[0] in checks; [m] + rest
  }

  /** The errors of a field validated by DataRequired, then Length(lo, hi),
      then the checks in `more`. A missing or blank value stops the chain
      with the required message alone; a bad length does not stop it. */
  function FieldErrors(data: string, requiredMessage: string, lo: nat, hi: nat, lengthMessage: string,
                       more: seq<Check>): (errors: seq<string>)
    ensures Blank(data) ==> errors == [requiredMessage]
    ensures errors == [] <==> !Blank(data) && lo <= |data| <= hi && forall c <- more :: c == Pass
    ensures !Blank(data) && !(lo <= |data| <= hi) ==> errors[0] == lengthMessage
    ensures !Blank(data) ==> forall c <- more :: c.Fail? ==> c.message in errors
    ensures forall m <- errors :: m == requiredMessage || m == lengthMessage || Fail(m) in more
    ensures |errors| <= 1 + |more|
  {
    if Blank(data) then [requiredMessage]
    else (if lo <= |data| <= hi then [] else [lengthMessage]) + Messages(more)
  }

  /** The guess field of the Wordle form (flasktest/imports/forms_imp.py and
      flasktest/games/forms.py): required, five characters, an allowed word. */
  function WordleFormErrors(data: string, wordList: seq<string>): (errors: seq<string>)
    ensures errors == [] <==> !Blank(data) && |data| == 5 && Lower(data) in wordList
    ensures |errors| <= 2
  {
    FieldErrors(data, "Please make a guess!", 5, 5, "5 letters only!", [WordleWordCheck(data, wordList, "Word not accepted!")])
  }

  /** The guess field of the older Wordle form that main.py uses: required and
      five characters long, with no word-list check. */
  function MainWordleFormErrors(data: string): (errors: seq<string>)
    ensures errors == [] <==> !Blank(data) && |data| == 5
    ensures |data| != 5 && !Blank(data) ==> errors == ["5 letters only!"]
    ensures Blank(data) ==> errors == ["Please make a guess!"]
  {
    FieldErrors(data, "Please make a guess!", 5, 5, "5 letters only!", [])
  }

  /** The username field of the register form: required, 1 to 50 characters,
      and passing UsernameCheck with the banned lists. */
  function UsernameErrors(data: string): (errors: seq<string>)
    ensures errors == [] <==>
              && !Blank(data) && 1 <= |data| <= 50
              && !BannedWord(data, BannedUsernameWords)
              && forall c <- BannedUsernameChars :: c !in data
    ensures !Blank(data) && (BannedWord(data, BannedUsernameWords) || exists c <- BannedUsernameChars :: c in data) ==>
              "Username or special characters not allowed" in errors
  {
    FieldErrors(data, "Username is required", 1, 50, "Mex length is 50 char",
                [UsernameCheck(data, BannedUsernameWords, BannedUsernameChars, "Username or special characters not allowed")])
  }

  /** The password field of the register form: required, 8 to 24 characters. */
  function PasswordErrors(data: string): (errors: seq<string>)
    ensures errors == [] <==> !Blank(data) && 8 <= |data| <= 24
  {
    FieldErrors(data, "Password is required", 8, 24, "Password must be 8 - 24 char", [])
  }

  /** WTForms' EqualTo("password") with its default message. */
  function EqualToPassword(data: string, password: string): (r: Check)
    ensures r == Pass <==> data == password
  {
    if data == password then Pass else Fail("Field must be equal to password.")
  }

  /** The re-typed password: required, 8 to 24 characters, equal to the password. */
  function Password2Errors(data: string, password: string): (errors: seq<string>)
    ensures errors == [] <==> !Blank(data) && 8 <= |data| <= 24 && data == password
    ensures !Blank(data) && data != password ==> "Field must be equal to password." in errors
  {
    FieldErrors(data, "Passwords must match", 8, 24, "Password must be 8 - 24 char", [EqualToPassword(data, password)])
  }

  /** A registration both of whose passwords pass has two equal passwords of
      8 to 24 characters. */
  lemma RegisterPasswordsAgree(password: string, password2: string)
    requires PasswordErrors(password) == [] && Password2Errors(password2, password) == []
    ensures password2 == password && 8 <= |password| <= 24
  {
  }

  /** The choices of the countries form in flasktest/games/forms.py:
      (value, label) pairs. */
  const CountryChoices: seq<(string, string)> := [("Larger", "Larger"), ("Smaller", "Smaller")]

  /** The choices of the older countries form that main.py uses: the value
      1 for "Larger" and 0 for "Smaller". */
  const MainCountryChoices: seq<(int, string)> := [(1, "Larger"), (0, "Smaller")]
}
