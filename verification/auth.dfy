/** The sign-in and sign-up page (`Auth`): the password rules, the e-mail
    check, the order of the guards before the backend is called, and the
    messages shown for backend errors. The backend calls themselves are
    outside the model: their error text is a parameter. */
module Auth {
  import opened Common
  import opened Text

  /** The four password rules, in the order they are reported. */
  datatype Rule = MinLength | Uppercase | Lowercase | Digit

  function Message(r: Rule): string
  {
    match r
    case MinLength => "حداقل ۸ کاراکتر"
    case Uppercase => "یک حرف بزرگ انگلیسی"
    case Lowercase => "یک حرف کوچک انگلیسی"
    case Digit => "یک عدد"
  }

  predicate HasCharIn(p: string, lo: char, hi: char)
  {
    exists i :: 0 <= i < |p| && lo <= p[i] <= hi
  }

  /** Whether `p` meets rule `r`: at least eight characters, `/[A-Z]/`,
      `/[a-z]/`, `/[0-9]/`. */
  predicate Meets(p: string, r: Rule)
  {
    match r
    case MinLength => |p| >= 8
    case Uppercase => HasCharIn(p, 'A', 'Z')
    case Lowercase => HasCharIn(p, 'a', 'z')
    case Digit => HasCharIn(p, '0', '9')
  }

  /** The rules `validatePassword` finds unmet: it tests them one after the
      other and pushes each failing one, so they come in rule order. */
  function UnmetRules(p: string): (r: seq<Rule>)
    ensures forall x :: x in r <==> !Meets(p, x)
  {
    (if |p| < 8 then [MinLength] else [])
    + (if !HasCharIn(p, 'A', 'Z') then [Uppercase] else [])
    + (if !HasCharIn(p, 'a', 'z') then [Lowercase] else [])
    + (if !HasCharIn(p, '0', '9') then [Digit] else [])
  }

  /** The position of a rule in the order `validatePassword` tests them. */
  function Rank(r: Rule): nat
  {
    match r
    case MinLength => 0
    case Uppercase => 1
    case Lowercase => 2
    case Digit => 3
  }

  /** The unmet rules come in the order they are tested, each once. */
  lemma UnmetRulesInOrder(p: string)
    ensures var r := UnmetRules(p);
      forall i, j :: 0 <= i < j < |r| ==> Rank(r[i]) < Rank(r[j])
  {
  }

  /** Different rules have different messages. */
  lemma MessagesDiffer(a: Rule, b: Rule)
    ensures a != b ==> Message(a) != Message(b)
  {
    if a != b && {a, b} == {Uppercase, Lowercase} {
      assert Message(a)[7] != Message(b)[7];
    } else if a != b {
      assert |Message(a)| != |Message(b)|;
    }
  }

  function Messages(rs: seq<Rule>): (ms: seq<string>)
    ensures |ms| == |rs| && forall i :: 0 <= i < |rs| ==> ms[i] == Message(rs[i])
  {
    seq(|rs|, i requires 0 <= i < |rs| => Message(rs[i]))
  }

  /** `validatePassword`: the messages of the unmet rules; none exactly when
      the password meets all four. */
  function PasswordErrors(p: string): (errors: seq<string>)
    ensures errors == [] <==> forall r :: Meets(p, r)
    ensures |errors| <= 4
  {
    var rs := UnmetRules(p);
    assert rs != [] ==> !Meets(p, rs[0]);
    Messages(rs)
  }

  /** A message is reported exactly when its rule fails. */
  lemma ErrorReported(p: string, r: Rule)
    ensures Message(r) in PasswordErrors(p) <==> !Meets(p, r)
  {
    var rs := UnmetRules(p);
    var errors := PasswordErrors(p);
    if !Meets(p, r) {
      var i :| 0 <= i < |rs| && rs[i] == r;
      assert errors[i] == Message(r);
    }
    if Message(r) in errors {
      var i :| 0 <= i < |errors| && errors[i] == Message(r);
      MessagesDiffer(rs[i], r);
      assert rs[i] in rs;
    }
  }

  // ---------------------------------------------------------------------------
  // The e-mail check

  /** A run the pattern `[^\s@]+` matches. */
  predicate Piece(s: string)
  {
    s != [] && forall i :: 0 <= i < |s| ==> !IsWhiteSpace(s[i]) && s[i] != '@'
  }

  /** `/^[^\s@]+@[^\s@]+\.[^\s@]+$/.test(s)` read as the pattern says:
      three runs, joined by `@` and by `.`. */
  ghost predicate EmailPattern(s: string)
  {
    exists i, j :: 0 < i < j < |s| - 1 && s[i] == '@' && s[j] == '.'
      && Piece(s[..i]) && Piece(s[i + 1..j]) && Piece(s[j + 1..])
  }

  /** The domain after the `@`: no white space and no `@`, and a dot that
      is neither its first nor its last character. */
  predicate DomainOk(d: string)
  {
    (forall k :: 0 <= k < |d| ==> !IsWhiteSpace(d[k]) && d[k] != '@')
    && exists k :: 0 < k < |d| - 1 && d[k] == '.'
  }

  /** The e-mail check as a test on the first `@`. */
  predicate EmailOk(s: string)
  {
    exists i :: 0 < i < |s| && s[i] == '@' && Piece(s[..i]) && DomainOk(s[i + 1..])
  }

  /** The check accepts exactly what the pattern matches. */
  lemma EmailCheck(s: string)
    ensures EmailOk(s) <==> EmailPattern(s)
  {
    if EmailOk(s) {
      CheckedMatches(s);
    }
    if EmailPattern(s) {
      MatchedPasses(s);
    }
  }

  lemma CheckedMatches(s: string)
    requires EmailOk(s)
    ensures EmailPattern(s)
  {
    var i :| 0 < i < |s| && s[i] == '@' && Piece(s[..i]) && DomainOk(s[i + 1..]);
    var d := s[i + 1..];
    var k :| 0 < k < |d| - 1 && d[k] == '.';
    var j := i + 1 + k;
    SliceParts(s, i + 1, k);
    PiecesOfDomain(d, k);
  }

  lemma PiecesOfDomain(d: string, k: int)
    requires DomainOk(d) && 0 < k < |d| - 1
    ensures Piece(d[..k]) && Piece(d[k + 1..])
  {
    forall m | 0 <= m < |d[..k]| ensures !IsWhiteSpace(d[..k][m]) && d[..k][m] != '@' {
      assert d[..k][m] == d[m];
    }
    var e := d[k + 1..];
    forall m | 0 <= m < |e| ensures !IsWhiteSpace(e[m]) && e[m] != '@' {
      assert e[m] == d[k + 1 + m];
    }
  }

  lemma MatchedPasses(s: string)
    requires EmailPattern(s)
    ensures EmailOk(s)
  {
    var i, j :| 0 < i < j < |s| - 1 && s[i] == '@' && s[j] == '.'
      && Piece(s[..i]) && Piece(s[i + 1..j]) && Piece(s[j + 1..]);
    DomainOfPieces(s, i, j);
  }

  /** The parts of the suffix `s[a..]` around its position `k`. */
  lemma SliceParts(s: string, a: int, k: int)
    requires 0 <= a && 0 <= k && a + k < |s|
    ensures s[a..][k] == s[a + k] && s[a..][..k] == s[a..a + k] && s[a..][k + 1..] == s[a + k + 1..]
  {
  }

  /** Two pieces joined by a dot after the `@` make a domain. */
  lemma DomainOfPieces(s: string, i: int, j: int)
    requires 0 < i < j < |s| - 1 && s[j] == '.' && Piece(s[i + 1..j]) && Piece(s[j + 1..])
    ensures DomainOk(s[i + 1..])
  {
    var d, k := s[i + 1..], j - i - 1;
    forall m | 0 <= m < |d| ensures !IsWhiteSpace(d[m]) && d[m] != '@' {
      if m < k {
        assert d[m] == s[i + 1..j][m];
      } else if m > k {
        assert d[m] == s[j + 1..][m - k - 1];
      }
    }
    assert d[k] == '.';
  }

  // ---------------------------------------------------------------------------
  // Submitting the form

  datatype Mode = SignIn | SignUp

  /** What `handleSubmit` does before any backend call: reject the e-mail,
      reject the password (with the joined messages), reject a blank name,
      or call the backend. */
  datatype Step =
    | BadEmail
    | WeakPassword(message: string)
    | MissingName
    | CallSignIn
    | CallSignUp

  /** `passwordErrors`: the rules apply only when signing up. */
  function ShownPasswordErrors(mode: Mode, password: string): (r: seq<string>)
    ensures mode == SignIn ==> r == []
    ensures mode == SignUp ==> r == PasswordErrors(password)
  {
    if mode == SignUp then PasswordErrors(password) else []
  }

  /** The guards in order: the e-mail, then (signing up) the password, then
      the name. */
  function SubmitStep(mode: Mode, email: string, password: string, displayName: string): (r: Step)
    ensures !EmailOk(email) ==> r == BadEmail
    ensures EmailOk(email) && mode == SignIn ==> r == CallSignIn
    ensures EmailOk(email) && mode == SignUp ==>
      r == (if PasswordErrors(password) != [] then
              WeakPassword("رمز عبور باید شامل " + Join(PasswordErrors(password), "، ") + " باشد")
            else if Trim(displayName) == "" then MissingName
            else CallSignUp)
  {
    if !EmailOk(email) then BadEmail
    else if mode == SignIn then CallSignIn
    else
      var errors := ShownPasswordErrors(mode, password);
      if errors != [] then WeakPassword("رمز عبور باید شامل " + Join(errors, "، ") + " باشد")
      else if Trim(displayName) == "" then MissingName
      else CallSignUp
  }

  /** The backend is called only with a well-formed e-mail, and a sign-up
      only with a password meeting all four rules and a name that is not
      blank. */
  lemma BackendCalledOnlyWhenValid(mode: Mode, email: string, password: string, displayName: string)
    ensures SubmitStep(mode, email, password, displayName) in {CallSignIn, CallSignUp} ==> EmailPattern(email)
    ensures SubmitStep(mode, email, password, displayName) == CallSignUp <==>
      mode == SignUp && EmailOk(email) && (forall r :: Meets(password, r)) && Trim(displayName) != ""
  {
    EmailCheck(email);
  }

  /** The message for a backend error on sign-in or sign-up. */
  function ErrorMessage(mode: Mode, backendMessage: string): (r: string)
    ensures mode == SignIn && Contains(backendMessage, "Invalid login credentials") ==> r == "ایمیل یا رمز عبور اشتباه است"
    ensures mode == SignIn && !Contains(backendMessage, "Invalid login credentials") ==> r == "خطا در ورود: " + backendMessage
    ensures mode == SignUp && Contains(backendMessage, "already registered") ==> r == "این ایمیل قبلاً ثبت شده است"
    ensures mode == SignUp && !Contains(backendMessage, "already registered") ==> r == "خطا در ثبت‌نام: " + backendMessage
  {
    match mode
    case SignIn =>
      if Contains(backendMessage, "Invalid login credentials") then "ایمیل یا رمز عبور اشتباه است"
      else "خطا در ورود: " + backendMessage
    case SignUp =>
      if Contains(backendMessage, "already registered") then "این ایمیل قبلاً ثبت شده است"
      else "خطا در ثبت‌نام: " + backendMessage
  }
}
