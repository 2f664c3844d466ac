/** The sign-up page: the password-strength meter, the checks made before
    sending, and the data it sends.  Character classes are the ASCII ones of the
    page's regular expressions; length counts characters. */
module RegisterForm {
  import opened Common

  // ---- Password strength ----------------------------------------------------

  predicate IsUpper(c: char) { 'A' <= c <= 'Z' }
  predicate IsDigit(c: char) { '0' <= c <= '9' }
  predicate IsAlphanumeric(c: char) { 'a' <= c <= 'z' || IsUpper(c) || IsDigit(c) }

  predicate HasUpper(s: string) { exists i :: 0 <= i < |s| && IsUpper(s[i]) }
  predicate HasDigit(s: string) { exists i :: 0 <= i < |s| && IsDigit(s[i]) }
  predicate HasSymbol(s: string) { exists i :: 0 <= i < |s| && !IsAlphanumeric(s[i]) }

  /** How many of the four criteria the password meets. */
  function CriteriaMet(password: string): (n: nat)
    ensures n <= 4
  {
    (if |password| >= 8 then 1 else 0) + (if HasUpper(password) then 1 else 0)
    + (if HasDigit(password) then 1 else 0) + (if HasSymbol(password) then 1 else 0)
  }

  /** `calculatePasswordStrength`: 25 points per criterion met. */
  method CalculatePasswordStrength(password: string) returns (strength: int)
    ensures strength == 25 * CriteriaMet(password)
    ensures strength in {0, 25, 50, 75, 100}
  {
    strength := 0;
    if |password| >= 8 { strength := strength + 25; }
    if HasUpper(password) { strength := strength + 25; }
    if HasDigit(password) { strength := strength + 25; }
    if HasSymbol(password) { strength := strength + 25; }
  }

  /** The meter's colour. */
  function GetStrengthColor(strength: int): (color: string)
    ensures color == "error" <==> strength < 50
    ensures color == "warning" <==> 50 <= strength < 75
    ensures color == "success" <==> strength >= 75
  {
    if strength < 50 then "error"
    else if strength < 75 then "warning"
    else "success"
  }

  function ColorRank(color: string): int
  {
    if color == "error" then 0 else if color == "warning" then 1 else 2
  }

  /** A stronger password never shows a worse colour. */
  lemma StrengthColorIsMonotone(a: int, b: int)
    requires a <= b
    ensures ColorRank(GetStrengthColor(a)) <= ColorRank(GetStrengthColor(b))
  {
  }

  /** Meeting every criterion is needed and enough for the full score. */
  lemma FullScoreMeansAllCriteria(password: string)
    ensures 25 * CriteriaMet(password) == 100 <==>
              |password| >= 8 && HasUpper(password) && HasDigit(password) && HasSymbol(password)
  {
  }

  // ---- Checks and submission ------------------------------------------------

  const PASSWORD_MISMATCH: string := "Les mots de passe ne correspondent pas"
  const TOO_YOUNG: string := "Vous devez avoir au moins 18 ans"

  /** `validateForm`: the error it reports, or None when the form may be sent.
      The age is the difference of calendar years; a birth date that does not
      read as a date (`birthYear` None) gives no age, and the age test passes. */
  function ValidateForm(password: string, confirmPassword: string, birthYear: Option<int>, currentYear: int)
    : (error: Option<string>)
    ensures password != confirmPassword ==> error == Some(PASSWORD_MISMATCH)
    ensures password == confirmPassword && birthYear.Some? && currentYear - birthYear.value < 18 ==>
              error == Some(TOO_YOUNG)
    ensures error == None <==>
              password == confirmPassword && (birthYear.Some? ==> currentYear - birthYear.value >= 18)
  {
    if password != confirmPassword then Some(PASSWORD_MISMATCH)
    else if birthYear.Some? && currentYear - birthYear.value < 18 then Some(TOO_YOUNG)
    else None
  }

  /** The page's field state. */
  datatype RegisterData = RegisterData(
    firstName: string, lastName: string, email: string, password: string,
    confirmPassword: string, birthDate: string, phoneNumber: string)

  /** What is sent: every field but `confirmPassword`. */
  datatype SubmitData = SubmitData(
    firstName: string, lastName: string, email: string, password: string,
    birthDate: string, phoneNumber: string)

  datatype SubmitAction =
    | Refused(message: string)
    | Send(data: SubmitData)

  /** `handleSubmit`: an invalid form is refused with its error and nothing is
      sent; a valid one sends its fields without the confirmation. */
  function HandleSubmit(form: RegisterData, birthYear: Option<int>, currentYear: int): (a: SubmitAction)
    ensures a.Send? <==> ValidateForm(form.password, form.confirmPassword, birthYear, currentYear) == None
    ensures a.Refused? ==> Some(a.message) == ValidateForm(form.password, form.confirmPassword, birthYear, currentYear)
    ensures a.Send? ==>
              && a.data.password == form.password == form.confirmPassword
              && a.data.firstName == form.firstName && a.data.lastName == form.lastName
              && a.data.email == form.email && a.data.birthDate == form.birthDate
              && a.data.phoneNumber == form.phoneNumber
  {
    match ValidateForm(form.password, form.confirmPassword, birthYear, currentYear)
    case Some(message) => Refused(message)
    case None =>
      Send(SubmitData(form.firstName, form.lastName, form.email, form.password, form.birthDate, form.phoneNumber))
  }

  /** The message shown when the server refuses: its own message, or a default;
      a refusal is never shown as a blank alert. */
  function FailureMessage(serverMessage: Option<string>): (message: string)
    ensures message != ""
    ensures Truthy(serverMessage) ==> message == serverMessage.value
    ensures !Truthy(serverMessage) ==> message == "Une erreur est survenue"
  {
    OrString(serverMessage, "Une erreur est survenue")
  }
}
