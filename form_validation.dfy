/** Field validators returning an error string ("" when valid), the 0-5 password strength
    score, and the errors/touched maps of the form-validation hook. The regular expressions
    are stated as explicit predicates over split points and proved equal to the tests that
    are computed. */
module FormValidation {
  import opened Wrappers
  import opened Seqs
  import opened Text

  // ---- e-mail: /^[^\s@]+@[^\s@]+\.[^\s@]+$/ ----

  /** Every character matches `[^\s@]`. */
  predicate NoSpaceNoAt(x: string)
  {
    forall k :: 0 <= k < |x| ==> !IsSpace(x[k]) && x[k] != '@'
  }

  /** The e-mail pattern matches with its '@' at i and its escaped '.' at j. */
  ghost predicate EmailMatchAt(s: string, i: int, j: int)
  {
    0 < i && i + 1 < j && j + 1 < |s| && s[i] == '@' && s[j] == '.' &&
    NoSpaceNoAt(s[..i]) && NoSpaceNoAt(s[i + 1..j]) && NoSpaceNoAt(s[j + 1..])
  }

  /** The e-mail pattern matches s. */
  ghost predicate EmailPattern(s: string)
  {
    exists i, j :: EmailMatchAt(s, i, j)
  }

  /** The test that is computed: one '@' with a non-empty local part, no whitespace, and a
      '.' in the domain that is neither its first nor its last character. */
  predicate EmailShape(s: string)
  {
    match FindIndex(s, (c: char) => c == '@')
    case None => false
    case Some(at) =>
      at > 0 && NoSpaceNoAt(s[..at]) && NoSpaceNoAt(s[at + 1..]) &&
      exists k :: at + 1 < k < |s| - 1 && s[k] == '.'
  }

  lemma EmailShapeIsPattern(s: string)
    ensures EmailShape(s) <==> EmailPattern(s)
  {
    var found := FindIndex(s, (c: char) => c == '@');
    if EmailShape(s) {
      var at := found.value;
      var k :| at + 1 < k < |s| - 1 && s[k] == '.';
      assert s[at + 1..k] == s[at + 1..][..k - at - 1];
      assert s[k + 1..] == s[at + 1..][k - at..];
      assert EmailMatchAt(s, at, k);
    }
    if EmailPattern(s) {
      var i, j :| EmailMatchAt(s, i, j);
      assert found == Some(i) by {
        assert forall m :: 0 <= m < i ==> s[m] == s[..i][m];
      }
      var d := s[i + 1..];
      forall m | 0 <= m < |d| ensures !IsSpace(d[m]) && d[m] != '@' {
        if m < j - i - 1 { assert d[m] == s[i + 1..j][m]; }
        else if m > j - i - 1 { assert d[m] == s[j + 1..][m - (j - i)]; }
      }
    }
  }

  const EmailRequired := "L'email est requis"
  const EmailInvalid := "Format d'email invalide"

  function ValidateEmail(email: string): (r: string)
    ensures r == "" <==> EmailPattern(email)
    ensures email == "" ==> r == EmailRequired
    ensures email != "" && !EmailPattern(email) ==> r == EmailInvalid
  {
    EmailShapeIsPattern(email);
    if email == "" then EmailRequired
    else if !EmailShape(email) then EmailInvalid
    else ""
  }

  // ---- password ----

  predicate HasUpper(p: string) { exists k :: 0 <= k < |p| && IsUpper(p[k]) }
  predicate HasLower(p: string) { exists k :: 0 <= k < |p| && IsLower(p[k]) }
  predicate HasDigit(p: string) { exists k :: 0 <= k < |p| && IsDigit(p[k]) }
  /** `/[^A-Za-z0-9]/`. */
  predicate HasSymbol(p: string) { exists k :: 0 <= k < |p| && !IsUpper(p[k]) && !IsLower(p[k]) && !IsDigit(p[k]) }

  const PasswordRequired := "Le mot de passe est requis"
  const PasswordTooShort := "Minimum 8 caractères"
  const PasswordNoUpper := "Au moins une majuscule"
  const PasswordNoLower := "Au moins une minuscule"
  const PasswordNoDigit := "Au moins un chiffre"

  /** Accepts exactly the passwords of at least 8 characters with an upper-case letter, a
      lower-case letter and a digit; otherwise names the first failing requirement in the
      order empty, length, upper, lower, digit. */
  function ValidatePassword(password: string): (r: string)
    ensures r == "" <==> |password| >= 8 && HasUpper(password) && HasLower(password) && HasDigit(password)
    ensures password == "" ==> r == PasswordRequired
    ensures password != "" && |password| < 8 ==> r == PasswordTooShort
    ensures |password| >= 8 && !HasUpper(password) ==> r == PasswordNoUpper
    ensures |password| >= 8 && HasUpper(password) && !HasLower(password) ==> r == PasswordNoLower
    ensures |password| >= 8 && HasUpper(password) && HasLower(password) && !HasDigit(password) ==> r == PasswordNoDigit
  {
    if password == "" then PasswordRequired
    else if |password| < 8 then PasswordTooShort
    else if !HasUpper(password) then PasswordNoUpper
    else if !HasLower(password) then PasswordNoLower
    else if !HasDigit(password) then PasswordNoDigit
    else ""
  }

  const ConfirmRequired := "Veuillez confirmer le mot de passe"
  const ConfirmMismatch := "Les mots de passe ne correspondent pas"

  function ValidateConfirmPassword(password: string, confirmPassword: string): (r: string)
    ensures r == "" <==> confirmPassword != "" && confirmPassword == password
    ensures confirmPassword == "" ==> r == ConfirmRequired
    ensures confirmPassword != "" && confirmPassword != password ==> r == ConfirmMismatch
  {
    if confirmPassword == "" then ConfirmRequired
    else if password != confirmPassword then ConfirmMismatch
    else ""
  }

  /** Rejects exactly the values that are empty after trimming, i.e. all whitespace. */
  function ValidateRequired(value: string, fieldLabel: string): (r: string)
    ensures r != "" <==> forall k :: 0 <= k < |value| ==> IsSpace(value[k])
    ensures r != "" ==> r == fieldLabel + " est requis"
  {
    TrimEmptyIff(value);
    var message := fieldLabel + " est requis";
    assert message[|message| - 1] == 's';
    if Trim(value) == "" then message else ""
  }

  // ---- phone: spaces and dashes removed, then /^(\+?\d{1,3}[\s-]?)?\d{6,14}$/ ----

  /** `[\s-]`. */
  predicate IsSeparator(c: char) { IsSpace(c) || c == '-' }

  predicate AllDigits(s: string) { forall k :: 0 <= k < |s| ==> IsDigit(s[k]) }

  /** `phone.replace(/[\s-]/g, "")`. */
  function Clean(phone: string): (r: string)
    ensures forall k :: 0 <= k < |r| ==> !IsSeparator(r[k])
    ensures IsSubsequence(r, phone)
    ensures forall ch :: multiset(r)[ch] == if IsSeparator(ch) then 0 else multiset(phone)[ch]
  {
    var r := Filter(phone, (c: char) => !IsSeparator(c));
    assert forall k :: 0 <= k < |r| ==> r[k] in r;
    FilterIsSubsequence(phone, (c: char) => !IsSeparator(c));
    CleanCounts(phone);
    r
  }

  /** Every character other than a separator keeps all its copies. */
  lemma CleanCounts(phone: string)
    ensures forall ch ::
      multiset(Filter(phone, (c: char) => !IsSeparator(c)))[ch] == (if IsSeparator(ch) then 0 else multiset(phone)[ch])
  {
    forall ch
      ensures multiset(Filter(phone, (c: char) => !IsSeparator(c)))[ch] == (if IsSeparator(ch) then 0 else multiset(phone)[ch])
    {
      FilterCount(phone, (c: char) => !IsSeparator(c), ch);
    }
  }

  /** `\+?\d{1,3}[\s-]?`: the optional separator and plus sign are determined by g itself. */
  ghost predicate CountryCode(g: string)
  {
    var body := if g != [] && IsSeparator(g[|g| - 1]) then g[..|g| - 1] else g;
    var ds := if body != [] && body[0] == '+' then body[1..] else body;
    AllDigits(ds) && 1 <= |ds| <= 3
  }

  /** The phone pattern matches with its optional country code ending at i. */
  ghost predicate PhoneMatchAt(c: string, i: int)
  {
    0 <= i <= |c| && (i == 0 || CountryCode(c[..i])) && AllDigits(c[i..]) && 6 <= |c| - i <= 14
  }

  ghost predicate PhonePattern(c: string)
  {
    exists i :: PhoneMatchAt(c, i)
  }

  /** The test that is computed: a plus sign and 7 to 17 digits, or 6 to 17 digits. */
  predicate PhoneShape(c: string)
  {
    if c != [] && c[0] == '+' then AllDigits(c[1..]) && 7 <= |c| - 1 <= 17
    else AllDigits(c) && 6 <= |c| <= 17
  }

  lemma PhoneShapeIsPattern(c: string)
    requires forall k :: 0 <= k < |c| ==> !IsSeparator(c[k])
    ensures PhoneShape(c) <==> PhonePattern(c)
  {
    if PhonePattern(c) {
      var i :| PhoneMatchAt(c, i);
      PatternHasShape(c, i);
    }
    if PhoneShape(c) {
      ShapeHasPattern(c);
    }
  }

  /** A match of the pattern in a number without separators has the computed shape. */
  lemma PatternHasShape(c: string, i: int)
    requires forall k :: 0 <= k < |c| ==> !IsSeparator(c[k])
    requires PhoneMatchAt(c, i)
    ensures PhoneShape(c)
  {
    if i > 0 {
      var g := c[..i];
      assert !IsSeparator(g[|g| - 1]);
      if g[0] == '+' {
        forall k | 0 <= k < |c[1..]| ensures IsDigit(c[1..][k]) {
          if k + 1 < i { assert c[1..][k] == g[1..][k]; }
          else { assert c[1..][k] == c[i..][k + 1 - i]; }
        }
      } else {
        assert c == g + c[i..];
      }
    }
  }

  /** A number of the computed shape matches the pattern: the country code takes the digits
      beyond the fourteen the main part allows, and at least one when there is a plus sign. */
  lemma ShapeHasPattern(c: string)
    requires PhoneShape(c)
    ensures PhonePattern(c)
  {
    if c[0] == '+' {
      var n := |c| - 1;
      var gs := if n > 14 then n - 14 else 1;
      var i := 1 + gs;
      assert c[..i][1..] == c[1..][..i - 1];
      assert c[i..] == c[1..][i - 1..];
      assert IsDigit(c[..i][|c[..i]| - 1]);
      assert PhoneMatchAt(c, i);
    } else if |c| <= 14 {
      assert c[0..] == c;
      assert PhoneMatchAt(c, 0);
    } else {
      var i := |c| - 14;
      assert PhoneMatchAt(c, i);
    }
  }

  const PhoneInvalid := "Format de téléphone invalide"

  /** The empty phone is accepted; otherwise the number with its spaces and dashes removed
      must match the phone pattern. */
  function ValidatePhone(phone: string): (r: string)
    ensures r == "" <==> phone == "" || PhonePattern(Clean(phone))
    ensures r != "" ==> r == PhoneInvalid
  {
    PhoneShapeIsPattern(Clean(phone));
    if phone == "" then ""
    else if !PhoneShape(Clean(phone)) then PhoneInvalid
    else ""
  }

  // ---- age ----

  const AgeInvalid := "Âge invalide (3-120)"

  /** The empty age is accepted; otherwise `parseInt` must give a number in 3..120. */
  function ValidateAge(age: string): (r: string)
    ensures r == "" <==> age == "" || (ParseInt(age).Some? && 3 <= ParseInt(age).value <= 120)
    ensures r != "" ==> r == AgeInvalid
  {
    if age == "" then ""
    else match ParseInt(age)
      case None => AgeInvalid
      case Some(n) => if n < 3 || n > 120 then AgeInvalid else ""
  }

  /** An age typed as a number is accepted exactly when it lies in 3..120 inclusive. */
  lemma AgeOfNumber(n: int)
    ensures ValidateAge(IntToString(n)) == "" <==> 3 <= n <= 120
  {
    ParseIntOfIntToString(n);
    assert IntToString(n) != "";
  }

  // ---- password strength ----

  /** The five criteria `getPasswordStrength` scores one point each for. */
  datatype Criterion = AtLeast8 | AtLeast12 | MixedCase | Digit | Symbol

  const AllCriteria: seq<Criterion> := [AtLeast8, AtLeast12, MixedCase, Digit, Symbol]

  predicate Meets(password: string, c: Criterion)
  {
    match c
    case AtLeast8 => |password| >= 8
    case AtLeast12 => |password| >= 12
    case MixedCase => HasUpper(password) && HasLower(password)
    case Digit => HasDigit(password)
    case Symbol => HasSymbol(password)
  }

  /** The number of criteria the password meets. */
  function Score(password: string): (n: nat)
    ensures n <= 5
  {
    |Filter(AllCriteria, (c: Criterion) => Meets(password, c))|
  }

  datatype Strength = Strength(level: nat, strengthLabel: string, color: string)

  /** Faible up to 2, Moyen at 3, Fort from 4. */
  function Graded(score: nat): Strength
  {
    if score <= 2 then Strength(score, "Faible", "bg-destructive")
    else if score <= 3 then Strength(score, "Moyen", "bg-yellow-500")
    else Strength(score, "Fort", "bg-green-500")
  }

  /** The score counts each criterion met once. */
  lemma ScoreCounts(password: string)
    ensures Score(password) ==
      (if Meets(password, AtLeast8) then 1 else 0) + (if Meets(password, AtLeast12) then 1 else 0) +
      (if Meets(password, MixedCase) then 1 else 0) + (if Meets(password, Digit) then 1 else 0) +
      (if Meets(password, Symbol) then 1 else 0)
  {
    var p := (c: Criterion) => Meets(password, c);
    var s4 := [Symbol];
    var s3 := [Digit] + s4;
    var s2 := [MixedCase] + s3;
    var s1 := [AtLeast12] + s2;
    assert AllCriteria == [AtLeast8] + s1;
    CountCons(AtLeast8, s1, p);
    CountCons(AtLeast12, s2, p);
    CountCons(MixedCase, s3, p);
    CountCons(Digit, s4, p);
    CountCons(Symbol, [], p);
  }

  /** Filtering a sequence with one more element in front counts it once when it is kept. */
  lemma CountCons(x: Criterion, s: seq<Criterion>, p: Criterion -> bool)
    ensures |Filter([x] + s, p)| == (if p(x) then 1 else 0) + |Filter(s, p)|
  {
    assert ([x] + s)[0] == x && ([x] + s)[1..] == s;
  }

  /** `getPasswordStrength`: level 0 and no label for the empty password; otherwise the
      score, accumulated one criterion at a time, and its grade. */
  method GetPasswordStrength(password: string) returns (s: Strength)
    ensures password == "" ==> s == Strength(0, "", "")
    ensures password != "" ==> s == Graded(Score(password)) && s.level <= 5
  {
    if password == "" {
      s := Strength(0, "", "");
    } else {
      var score := 0;
      score := score + (if |password| >= 8 then 1 else 0);
      score := score + (if |password| >= 12 then 1 else 0);
      score := score + (if HasUpper(password) && HasLower(password) then 1 else 0);
      score := score + (if HasDigit(password) then 1 else 0);
      score := score + (if HasSymbol(password) then 1 else 0);
      ScoreCounts(password);
      if score <= 2 {
        s := Strength(score, "Faible", "bg-destructive");
      } else if score <= 3 {
        s := Strength(score, "Moyen", "bg-yellow-500");
      } else {
        s := Strength(score, "Fort", "bg-green-500");
      }
    }
  }

  /** A password the validator accepts scores at least 3, so it is never graded Faible. */
  lemma AcceptedPasswordNotWeak(password: string)
    requires ValidatePassword(password) == ""
    ensures Score(password) >= 3
    ensures Graded(Score(password)).strengthLabel != "Faible"
  {
    ScoreCounts(password);
  }

  // ---- the hook's errors/touched maps ----

  /** `getError(field)`: "" until the field is touched; then the stored error, or None for
      `undefined` when none is stored. */
  function ErrorShown(errors: map<string, string>, touched: map<string, bool>, field: string): Option<string>
  {
    if field in touched && touched[field] then
      if field in errors then Some(errors[field]) else None
    else Some("")
  }

  /** `hasErrors()`: some stored error is non-empty. */
  predicate AnyError(errors: map<string, string>)
  {
    exists k :: k in errors && errors[k] != ""
  }

  /** An untouched field shows no error whatever is stored for it. */
  lemma UntouchedShowsNothing(errors: map<string, string>, touched: map<string, bool>, field: string, e: string)
    requires field !in touched
    ensures ErrorShown(errors[field := e], touched, field) == Some("")
  {
  }

  /** Setting one field's error or marking one field touched changes what is shown for that
      field only. */
  lemma UpdatesAreLocal(errors: map<string, string>, touched: map<string, bool>, field: string, other: string, e: string)
    requires other != field
    ensures ErrorShown(errors[field := e], touched, other) == ErrorShown(errors, touched, other)
    ensures ErrorShown(errors, touched[field := true], other) == ErrorShown(errors, touched, other)
    ensures ErrorShown(errors[field := e], touched[field := true], field) == Some(e)
  {
  }

  /** After setting one field's error, there are errors exactly when that error is non-empty
      or another field still has one. */
  lemma AnyErrorAfterSet(errors: map<string, string>, field: string, e: string)
    ensures AnyError(errors[field := e]) <==> e != "" || exists k :: k in errors && k != field && errors[k] != ""
  {
    var m := errors[field := e];
    if e != "" { assert field in m && m[field] != ""; }
    if exists k :: k in errors && k != field && errors[k] != "" {
      var k :| k in errors && k != field && errors[k] != "";
      assert k in m && m[k] != "";
    }
  }

  /** The hook's state. */
  class ValidationState {
    var errors: map<string, string>
    var touched: map<string, bool>

    constructor ()
      ensures errors == map[] && touched == map[] && !HasErrors()
    {
      errors := map[];
      touched := map[];
    }

    method SetFieldError(field: string, error: string)
      modifies this
      ensures errors == old(errors)[field := error] && touched == old(touched)
    {
      errors := errors[field := error];
    }

    method MarkTouched(field: string)
      modifies this
      ensures touched == old(touched)[field := true] && errors == old(errors)
    {
      touched := touched[field := true];
    }

    method SetErrors(newErrors: map<string, string>)
      modifies this
      ensures errors == newErrors && touched == old(touched)
    {
      errors := newErrors;
    }

    predicate IsTouched(field: string)
      reads this
    {
      field in touched && touched[field]
    }

    function GetError(field: string): Option<string>
      reads this
    {
      ErrorShown(errors, touched, field)
    }

    predicate HasErrors()
      reads this
    {
      AnyError(errors)
    }
  }
}
