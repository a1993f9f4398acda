/**
 * The login/signup demonstration of the if-else concept: the login and
 * signup validation chains (first failing check wins), the password
 * strength meter and its colour, and the message line the handlers write.
 * The page carries two copies of these handlers, one scoped to a container
 * and one document-wide; their chains, meter and colours are the same and
 * are modelled once.
 */
module AuthDemo {
  const DemoEmail := "user@example.com"
  const DemoPassword := "securepass123"
  const Green := "#9ece6a"

  // ================================================================ login

  datatype LoginMessage = EnterEmail | EnterPassword | LoginSuccessful | IncorrectPassword | EmailNotRegistered

  function LoginText(m: LoginMessage): string {
    match m
    case EnterEmail => "Please enter your email"
    case EnterPassword => "Please enter your password"
    case LoginSuccessful => "Login successful!"
    case IncorrectPassword => "Incorrect password"
    case EmailNotRegistered => "Email not registered"
  }

  /** The login chain: empty fields first, then the one known account. */
  function LoginCheck(email: string, password: string): (m: LoginMessage)
    ensures m == LoginSuccessful <==> email == DemoEmail && password == DemoPassword
    ensures m == IncorrectPassword <==> email == DemoEmail && password != [] && password != DemoPassword
    ensures m == EmailNotRegistered <==> email != [] && password != [] && email != DemoEmail
    ensures m == EnterEmail <==> email == []
    ensures m == EnterPassword <==> email != [] && password == []
  {
    if email == [] then EnterEmail
    else if password == [] then EnterPassword
    else if email == DemoEmail && password == DemoPassword then LoginSuccessful
    else if email == DemoEmail then IncorrectPassword
    else EmailNotRegistered
  }

  // ================================================================ signup

  datatype SignupMessage =
    | EnterName | EnterSignupEmail | InvalidEmail | CreatePassword | PasswordTooShort
    | ConfirmPassword | PasswordsDiffer | AlreadyRegistered | AccountCreated

  function SignupText(m: SignupMessage): string {
    match m
    case EnterName => "Please enter your name"
    case EnterSignupEmail => "Please enter your email"
    case InvalidEmail => "Please enter a valid email"
    case CreatePassword => "Please create a password"
    case PasswordTooShort => "Password must be at least 8 characters"
    case ConfirmPassword => "Please confirm your password"
    case PasswordsDiffer => "Passwords do not match"
    case AlreadyRegistered => "Email already registered"
    case AccountCreated => "Account created successfully!"
  }

  /** Every field check of the signup form passes. */
  predicate FieldsValid(name: string, email: string, password: string, confirm: string) {
    name != [] && '@' in email && |password| >= 8 && confirm == password
  }

  /** The signup chain: eight field checks in order, then the taken address. */
  function SignupCheck(name: string, email: string, password: string, confirm: string): (m: SignupMessage)
    ensures m == AccountCreated <==> FieldsValid(name, email, password, confirm) && email != DemoEmail
    ensures m == AlreadyRegistered <==> FieldsValid(name, email, password, confirm) && email == DemoEmail
    ensures m == PasswordTooShort <==> name != [] && '@' in email && 0 < |password| < 8
    ensures m == PasswordsDiffer ==> |password| >= 8 && confirm != [] && confirm != password
  {
    if name == [] then EnterName
    else if email == [] then EnterSignupEmail
    else if '@' !in email then InvalidEmail
    else if password == [] then CreatePassword
    else if |password| < 8 then PasswordTooShort
    else if confirm == [] then ConfirmPassword
    else if password != confirm then PasswordsDiffer
    else if email == DemoEmail then AlreadyRegistered
    else AccountCreated
  }

  // ================================================================ the message line

  /** The message element: its text and its colour. */
  datatype Line = Line(text: string, colour: string)

  /** The line after a login click: a success turns it green; nothing turns it back. */
  function AfterLogin(line: Line, email: string, password: string): Line {
    var m := LoginCheck(email, password);
    Line(LoginText(m), if m == LoginSuccessful then Green else line.colour)
  }

  /** The line after a signup click, likewise. */
  function AfterSignup(line: Line, name: string, email: string, password: string, confirm: string): Line {
    var m := SignupCheck(name, email, password, confirm);
    Line(SignupText(m), if m == AccountCreated then Green else line.colour)
  }

  class MessageLine {
    var text: string
    var colour: string

    constructor (colour0: string)
      ensures text == [] && colour == colour0
    {
      text := [];
      colour := colour0;
    }

    /** The login button's click handler. */
    method Login(email: string, password: string)
      modifies this
      ensures Line(text, colour) == AfterLogin(old(Line(text, colour)), email, password)
    {
      text := "";
      if email == [] {
        text := "Please enter your email";
      } else if password == [] {
        text := "Please enter your password";
      } else if email == DemoEmail && password == DemoPassword {
        text := "";
        colour := Green;
        text := "Login successful!";
      } else if email == DemoEmail {
        text := "Incorrect password";
      } else {
        text := "Email not registered";
      }
    }

    /** The signup button's click handler. */
    method Signup(name: string, email: string, password: string, confirm: string)
      modifies this
      ensures Line(text, colour) == AfterSignup(old(Line(text, colour)), name, email, password, confirm)
    {
      text := "";
      if name == [] {
        text := "Please enter your name";
      } else if email == [] {
        text := "Please enter your email";
      } else if '@' !in email {
        text := "Please enter a valid email";
      } else if password == [] {
        text := "Please create a password";
      } else if |password| < 8 {
        text := "Password must be at least 8 characters";
      } else if confirm == [] {
        text := "Please confirm your password";
      } else if password != confirm {
        text := "Passwords do not match";
      } else if email == DemoEmail {
        text := "Email already registered";
      } else {
        text := "";
        colour := Green;
        text := "Account created successfully!";
      }
    }
  }

  /**
   * The handlers may be installed twice, so one click can run a chain twice;
   * the second run leaves the line as the first left it.
   */
  lemma ClickTwiceSameLine(line: Line, name: string, email: string, password: string, confirm: string)
    ensures AfterLogin(AfterLogin(line, email, password), email, password) == AfterLogin(line, email, password)
    ensures AfterSignup(AfterSignup(line, name, email, password, confirm), name, email, password, confirm)
      == AfterSignup(line, name, email, password, confirm)
  {
  }

  /** After one successful login, every later message, errors included, is shown in green. */
  lemma GreenSticks(line: Line, later: seq<(string, string)>)
    ensures LoginsFrom(AfterLogin(line, DemoEmail, DemoPassword), later).colour == Green
  {
    GreenStays(AfterLogin(line, DemoEmail, DemoPassword), later);
  }

  /** The line after a run of login clicks. */
  function LoginsFrom(line: Line, clicks: seq<(string, string)>): Line
    decreases |clicks|
  {
    if clicks == [] then line else LoginsFrom(AfterLogin(line, clicks[0].0, clicks[0].1), clicks[1..])
  }

  lemma {:induction false} GreenStays(line: Line, clicks: seq<(string, string)>)
    requires line.colour == Green
    ensures LoginsFrom(line, clicks).colour == Green
    decreases |clicks|
  {
    if clicks != [] {
      GreenStays(AfterLogin(line, clicks[0].0, clicks[0].1), clicks[1..]);
    }
  }

  // ================================================================ strength meter

  predicate HasUpper(p: string) {
    exists i | 0 <= i < |p| :: 'A' <= p[i] <= 'Z'
  }

  predicate HasDigit(p: string) {
    exists i | 0 <= i < |p| :: '0' <= p[i] <= '9'
  }

  predicate IsAlnum(c: char) {
    'A' <= c <= 'Z' || 'a' <= c <= 'z' || '0' <= c <= '9'
  }

  predicate HasSymbol(p: string) {
    exists i | 0 <= i < |p| :: !IsAlnum(p[i])
  }

  /** How many of the four strength criteria the password meets. */
  function Criteria(p: string): (n: nat)
    ensures n <= 4
  {
    (if |p| >= 8 then 1 else 0) + (if HasUpper(p) then 1 else 0)
      + (if HasDigit(p) then 1 else 0) + (if HasSymbol(p) then 1 else 0)
  }

  /** The input handler's score: 25 points per criterion met, so one of 0, 25, 50, 75, 100. */
  method PasswordStrength(password: string) returns (strength: int)
    ensures strength == 25 * Criteria(password)
    ensures strength in {0, 25, 50, 75, 100}
  {
    strength := 0;
    if |password| >= 8 {
      strength := strength + 25;
    }
    if HasUpper(password) {
      strength := strength + 25;
    }
    if HasDigit(password) {
      strength := strength + 25;
    }
    if HasSymbol(password) {
      strength := strength + 25;
    }
  }

  /** Typing more characters never lowers the score. */
  lemma StrengthNeverDrops(p: string, q: string)
    ensures Criteria(p + q) >= Criteria(p)
  {
    if HasUpper(p) {
      var i :| 0 <= i < |p| && 'A' <= p[i] <= 'Z';
      assert (p + q)[i] == p[i];
    }
    if HasDigit(p) {
      var i :| 0 <= i < |p| && '0' <= p[i] <= '9';
      assert (p + q)[i] == p[i];
    }
    if HasSymbol(p) {
      var i :| 0 <= i < |p| && !IsAlnum(p[i]);
      assert (p + q)[i] == p[i];
    }
  }

  const Palette: seq<string> := ["#f7768e", "#e0af68", "#ff9e64", Green]

  /** The colour band of a score: below 25, below 50, below 75, the rest. */
  function Band(strength: int): (b: nat)
    ensures b < |Palette|
    ensures b == 0 <==> strength < 25
    ensures b == 3 <==> strength >= 75
  {
    if strength < 25 then 0 else if strength < 50 then 1 else if strength < 75 then 2 else 3
  }

  /** The meter's colour. */
  function StrengthColour(strength: int): string {
    Palette[Band(strength)]
  }

  /** A higher score never has a lower band. */
  lemma BandMonotone(s: int, t: int)
    requires s <= t
    ensures Band(s) <= Band(t)
  {
  }

  /**
   * The band of a password is its number of criteria, capped at three: a
   * single criterion (a score of exactly 25) is already out of the red, and
   * green needs three.
   */
  lemma BandOfPassword(p: string)
    ensures Band(25 * Criteria(p)) == if Criteria(p) >= 3 then 3 else Criteria(p)
    ensures StrengthColour(25 * Criteria(p)) == Green <==> Criteria(p) >= 3
  {
  }
}
