/**
 * The registration form: the password-strength rule and the order of the
 * checks the Register button makes before it builds a `User`.
 */
module Register {

  import opened Wrappers
  import opened UserModel

  /** The character classes the password pattern uses. */
  datatype CharClass =
    | Letters       // [A-Za-z]
    | Digits        // \d, read as the ASCII digits [0-9] (the java.util.regex meaning without UNICODE_CHARACTER_CLASS)
    | Specials      // [@$!%*#?&]
    | PasswordChars // [A-Za-z\d@$!%*#?&]

  predicate IsLetter(c: char) { 'A' <= c <= 'Z' || 'a' <= c <= 'z' }
  predicate IsDigit(c: char) { '0' <= c <= '9' }
  predicate IsSpecial(c: char) { c in "@$!%*#?&" }

  predicate InClass(c: char, k: CharClass)
  {
    match k
    case Letters => IsLetter(c)
    case Digits => IsDigit(c)
    case Specials => IsSpecial(c)
    case PasswordChars => IsLetter(c) || IsDigit(c) || IsSpecial(c)
  }

  /**
   * The characters `.` refuses to match in java.util.regex without DOTALL.
   * (ICU also stops at U+000B and U+000C; both fail the body class, so the
   * verdict of the pattern is the same.)
   */
  predicate IsLineTerminator(c: char)
  {
    c == '\n' || c == '\r' || c == '\U{0085}' || c == '\U{2028}' || c == '\U{2029}'
  }

  /**
   * A whole-string pattern of the shape `^(?=.*[K1])...(?=.*[Kn])[B]{min,}$`:
   * a list of lookaheads, each asking that some character of class Ki follow
   * a run of non-line-terminators, and a body class repeated at least `min` times.
   */
  datatype Pattern = Pattern(lookaheads: seq<CharClass>, body: CharClass, min: nat)

  /** `^(?=.*[A-Za-z])(?=.*\d)(?=.*[@$!%*#?&])[A-Za-z\d@$!%*#?&]{6,}$` */
  const PasswordPattern := Pattern([Letters, Digits, Specials], PasswordChars, 6)

  /** `(?=.*[k])` at the start of `s`. */
  predicate LooksAhead(s: string, k: CharClass)
  {
    exists i :: 0 <= i < |s| && InClass(s[i], k) && forall j :: 0 <= j < i ==> !IsLineTerminator(s[j])
  }

  /** `Regex.matches`: the pattern must match the whole of `s`. */
  predicate Matches(p: Pattern, s: string)
  {
    && (forall n :: 0 <= n < |p.lookaheads| ==> LooksAhead(s, p.lookaheads[n]))
    && |s| >= p.min
    && forall i :: 0 <= i < |s| ==> InClass(s[i], p.body)
  }

  predicate AllAllowed(s: string) { forall i :: 0 <= i < |s| ==> InClass(s[i], PasswordChars) }
  predicate HasLetter(s: string) { exists i :: 0 <= i < |s| && IsLetter(s[i]) }
  predicate HasDigit(s: string) { exists i :: 0 <= i < |s| && IsDigit(s[i]) }
  predicate HasSpecial(s: string) { exists i :: 0 <= i < |s| && IsSpecial(s[i]) }

  /** A string made of password characters has no line terminator, so `.*` spans all of it. */
  lemma LooksAheadInAllowed(s: string, k: CharClass)
    requires AllAllowed(s)
    ensures LooksAhead(s, k) <==> exists i :: 0 <= i < |s| && InClass(s[i], k)
  {
    if i :| 0 <= i < |s| && InClass(s[i], k) {
      assert forall j :: 0 <= j < i ==> !IsLineTerminator(s[j]) by {
        forall j | 0 <= j < i ensures !IsLineTerminator(s[j]) {
          assert InClass(s[j], PasswordChars);
        }
      }
    }
  }

  /**
   * `isValidPassword`: at least six characters, all of them letters, digits or
   * one of `@$!%*#?&`, with at least one letter, one digit and one special.
   */
  function IsValidPassword(password: string): (ok: bool)
    ensures ok <==> && |password| >= 6
                    && AllAllowed(password)
                    && HasLetter(password) && HasDigit(password) && HasSpecial(password)
  {
    var ok := Matches(PasswordPattern, password);
    var ks := PasswordPattern.lookaheads;
    assert ks[0] == Letters && ks[1] == Digits && ks[2] == Specials;
    assert ok <==> && (forall n :: 0 <= n < 3 ==> LooksAhead(password, ks[n]))
                   && |password| >= 6 && AllAllowed(password);
    if AllAllowed(password) then
      LooksAheadInAllowed(password, Letters);
      LooksAheadInAllowed(password, Digits);
      LooksAheadInAllowed(password, Specials);
      assert ok <==> && |password| >= 6
                     && LooksAhead(password, Letters) && LooksAhead(password, Digits) && LooksAhead(password, Specials);
      ok
    else
      ok
  }

  /** Appending allowed characters to an accepted password keeps it accepted. */
  lemma ValidPasswordExtends(password: string, suffix: string)
    requires IsValidPassword(password) && AllAllowed(suffix)
    ensures IsValidPassword(password + suffix)
  {
    var s := password + suffix;
    var a :| 0 <= a < |password| && IsLetter(password[a]);
    var b :| 0 <= b < |password| && IsDigit(password[b]);
    var c :| 0 <= c < |password| && IsSpecial(password[c]);
    assert s[a] == password[a] && s[b] == password[b] && s[c] == password[c];
    forall i | 0 <= i < |s| ensures InClass(s[i], PasswordChars) {
      if i < |password| { assert s[i] == password[i]; } else { assert s[i] == suffix[i - |password|]; }
    }
  }

  /** A password shorter than six characters is refused, whatever it contains. */
  lemma ShortPasswordRefused(password: string)
    requires |password| < 6
    ensures !IsValidPassword(password)
  {
  }

  /** A password with one character outside `[A-Za-z0-9@$!%*#?&]` is refused, whatever else it contains. */
  lemma ForeignCharacterRefused(password: string)
    requires exists i :: 0 <= i < |password| && !InClass(password[i], PasswordChars)
    ensures !IsValidPassword(password)
  {
  }

  /** A specimen password the rule accepts. */
  lemma PasswordAccepted()
    ensures IsValidPassword("abc12!")
  {
    var p := "abc12!";
    assert IsLetter(p[0]) && IsDigit(p[3]) && IsSpecial(p[5]);
  }

  /** Specimen passwords refused for a character outside the allowed set, whatever else they contain. */
  lemma PasswordsWithForeignCharacter()
    ensures !IsValidPassword("abc12 !")    // a space
    ensures !IsValidPassword("abc_12!")    // an underscore
    ensures !IsValidPassword("abc\U{E9}12!")    // a non-ASCII letter
  {
    assert !InClass("abc12 !"[5], PasswordChars);
    assert !InClass("abc_12!"[3], PasswordChars);
    assert !InClass("abc\U{E9}12!"[3], PasswordChars);
  }

  /** Specimen passwords of allowed characters refused for being short or for lacking a class. */
  lemma PasswordsLackingSomething()
    ensures !IsValidPassword("ab12!")      // too short
    ensures !IsValidPassword("abcdef!")    // no digit
    ensures !IsValidPassword("abc123")     // no special character
    ensures !IsValidPassword("123456!")    // no letter
  {
    assert forall i :: 0 <= i < 7 ==> !IsDigit("abcdef!"[i]);
    assert forall i :: 0 <= i < 6 ==> !IsSpecial("abc123"[i]);
    assert forall i :: 0 <= i < 7 ==> !IsLetter("123456!"[i]);
  }

  /** What the user typed into the registration form. */
  datatype RegisterForm = RegisterForm(
    fullName: string,
    email: string,
    phone: string,
    bloodGroup: string,
    password: string,
    confirmPassword: string
  )

  /** Why the Register button refused the form. */
  datatype Rejection = WeakPassword | PasswordsDiffer

  datatype RegisterOutcome = Rejected(reason: Rejection) | Registered(user: User)

  /**
   * The Register button: refuse a weak password, then a confirmation that
   * differs, and only then build the donor record. `newUid` stands for the
   * random UUID; `createdAt` and `updatedAt` for the two clock readings of
   * `User`'s defaults.
   */
  function RegisterUser(form: RegisterForm, newUid: string, createdAt: Int64, updatedAt: Int64): (o: RegisterOutcome)
    ensures o == Rejected(WeakPassword) <==> !IsValidPassword(form.password)
    ensures o == Rejected(PasswordsDiffer) <==> IsValidPassword(form.password) && form.password != form.confirmPassword
    ensures o.Registered? <==> IsValidPassword(form.password) && form.password == form.confirmPassword
    ensures o.Registered? ==>
      && o.user.uid == newUid
      && o.user.fullName == form.fullName && o.user.email == form.email
      && o.user.phone == form.phone && o.user.bloodGroup == form.bloodGroup
      && o.user.isDonor
      && o.user.profileImageUrl == None && o.user.lastDonationDate == None
      && o.user.totalDonations == 0
      && o.user.createdAt == createdAt && o.user.updatedAt == updatedAt
  {
    if !IsValidPassword(form.password) then
      Rejected(WeakPassword)
    else if form.password != form.confirmPassword then
      Rejected(PasswordsDiffer)
    else
      Registered(DefaultUser(createdAt, updatedAt).(
        uid := newUid,
        fullName := form.fullName,
        email := form.email,
        phone := form.phone,
        bloodGroup := form.bloodGroup,
        isDonor := true))
  }

  /** The strength check comes first: a weak password is reported as weak even when the confirmation differs. */
  lemma WeakReportedBeforeMismatch(form: RegisterForm, newUid: string, createdAt: Int64, updatedAt: Int64)
    requires !IsValidPassword(form.password)
    ensures RegisterUser(form, newUid, createdAt, updatedAt) == Rejected(WeakPassword)
  {
  }
}
