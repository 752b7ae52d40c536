/** The User entity's value objects: `Email` and `Username`, with the email pattern as a predicate on strings. */
module UserEntity {
  import opened Common

  /** A user as the client sees it; dates are milliseconds since the epoch. */
  datatype User = User(
    id: string,
    username: string,
    email: string,
    firstName: Option<string>,
    lastName: Option<string>,
    name: Option<string>,
    roles: seq<string>,
    groups: Option<seq<string>>,
    organization: Option<string>,
    tenantId: Option<string>,
    isActive: bool,
    emailVerified: Option<bool>,
    createdAt: int,
    updatedAt: int)

  /** What the signup form submits. */
  datatype UserRegistrationData = UserRegistrationData(
    username: string, email: string, firstName: string, lastName: string,
    password: string, organization: string)

  /** What the invite dialog submits. */
  datatype UserInvitation = UserInvitation(
    username: string, email: string, firstName: string, lastName: string,
    password: string, tenantId: Option<string>, roles: Option<seq<string>>, groups: Option<seq<string>>)

  /** The character class `[^\s@]`. */
  predicate IsWordChar(c: char) {
    !IsJsSpace(c) && c != '@'
  }

  /** One or more characters of `[^\s@]`. */
  predicate IsWord(w: string) {
    |w| > 0 && forall i :: 0 <= i < |w| ==> IsWordChar(w[i])
  }

  /**
   * The language of `^[^\s@]+@[^\s@]+\.[^\s@]+$`: a word, '@', a word, '.', a word.
   * `i` is the position of the '@' and `k` that of the '.' the regex chose.
   */
  ghost predicate MatchesEmailPattern(s: string) {
    exists i, k :: 0 < i && i + 1 < k && k + 1 < |s| && EmailSplit(s, i, k)
  }

  ghost predicate EmailSplit(s: string, i: int, k: int)
    requires 0 < i && i + 1 < k && k + 1 < |s|
  {
    s[i] == '@' && s[k] == '.' && IsWord(s[..i]) && IsWord(s[i + 1..k]) && IsWord(s[k + 1..])
  }

  /** No character of `s` is whitespace or '@'. */
  predicate AllWordChars(s: string) {
    forall j :: 0 <= j < |s| ==> IsWordChar(s[j])
  }

  /** `emailRegex.test(s)`, decided by locating the first '@' and a '.' inside the domain. */
  function EmailRegexTest(s: string): (accepted: bool)
    ensures accepted ==> |s| >= 5 && s[0] != '@' && '@' in s
  {
    match IndexOf(s, '@')
    case None => false
    case Some(at) =>
      0 < at && AllWordChars(s[..at]) && AllWordChars(s[at + 1..]) &&
      exists k :: at + 1 < k < |s| - 1 && s[k] == '.'
  }

  /** The test accepts exactly the strings in the regex's language. */
  lemma EmailRegexTestCorrect(s: string)
    ensures EmailRegexTest(s) <==> MatchesEmailPattern(s)
  {
    if EmailRegexTest(s) {
      var at := IndexOf(s, '@').value;
      var k :| at + 1 < k < |s| - 1 && s[k] == '.';
      assert s[at + 1..k] == s[at + 1..][..k - at - 1];
      assert s[k + 1..] == s[at + 1..][k - at..];
      assert EmailSplit(s, at, k);
    }
    if MatchesEmailPattern(s) {
      var i, k :| 0 < i && i + 1 < k && k + 1 < |s| && EmailSplit(s, i, k);
      assert '@' !in s[..i];
      assert IndexOf(s, '@') == Some(i);
      forall j | i + 1 <= j < |s| ensures IsWordChar(s[j]) {
        if j < k {
          assert s[j] == s[i + 1..k][j - i - 1];
        } else if j > k {
          assert s[j] == s[k + 1..][j - k - 1];
        }
      }
      assert AllWordChars(s[i + 1..]);
    }
  }

  /** Every accepted email has exactly one '@', text on both sides, and a '.' strictly inside the domain. */
  lemma AcceptedEmailShape(s: string)
    requires MatchesEmailPattern(s)
    ensures exists i :: 0 < i < |s| - 1 && s[i] == '@' && '@' !in s[..i] && '@' !in s[i + 1..] &&
                        exists k :: i + 1 < k < |s| - 1 && s[k] == '.'
  {
    EmailRegexTestCorrect(s);
    var i := IndexOf(s, '@').value;
    assert '@' !in s[i + 1..] by {
      assert AllWordChars(s[i + 1..]);
    }
  }

  /** The `Email` value object: only `CreateEmail` builds one. */
  datatype Email = Email(value: string) {
    /** `toString()`: the wrapped string itself. */
    function ToString(): (s: string)
      ensures s == value
    {
      value
    }
  }

  /** `Email.create`: succeeds iff the string matches the pattern, and keeps the string. */
  function CreateEmail(email: string): (r: Result<Email, string>)
    ensures r.Ok? <==> MatchesEmailPattern(email)
    ensures r.Ok? ==> r.value.ToString() == email
    ensures r.Err? ==> r.error == "Invalid email format"
  {
    EmailRegexTestCorrect(email);
    if !EmailRegexTest(email) then Err("Invalid email format") else Ok(Email(email))
  }

  /** `Username.isValid`: 3 to 20 UTF-16 code units. */
  predicate UsernameIsValid(username: string) {
    3 <= JsLength(username) <= 20
  }

  /** The `Username` value object: only `CreateUsername` builds one. */
  datatype Username = Username(value: string) {
    /** `toString()`: the wrapped string itself. */
    function ToString(): (s: string)
      ensures s == value
    {
      value
    }
  }

  /** `Username.create`: succeeds iff the length is within 3..20, and keeps the string. */
  function CreateUsername(username: string): (r: Result<Username, string>)
    ensures r.Ok? <==> 3 <= JsLength(username) <= 20
    ensures r.Ok? ==> r.value.ToString() == username
    ensures r.Err? ==> r.error == "Username must be between 3 and 20 characters"
  {
    if !UsernameIsValid(username) then Err("Username must be between 3 and 20 characters")
    else Ok(Username(username))
  }

  /** For strings within the Basic Multilingual Plane the bound is on the number of characters. */
  lemma UsernameBmpLength(username: string)
    requires forall i :: 0 <= i < |username| ==> username[i] as int <= 0xFFFF
    ensures CreateUsername(username).Ok? <==> 3 <= |username| <= 20
  {
    BmpJsLength(username);
  }

  lemma {:induction false} BmpJsLength(s: string)
    requires forall i :: 0 <= i < |s| ==> s[i] as int <= 0xFFFF
    ensures JsLength(s) == |s|
  {
    if s != [] {
      BmpJsLength(s[1..]);
    }
  }
}
