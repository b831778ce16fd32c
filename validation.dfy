/** The express-validator chains that guard the register, password and job routes, and the
    handler that turns their collected errors into a 400 reply. Every validator of a chain
    runs (there is no `bail`), so one failing check contributes one error, in chain order. */
module Validation {
  import opened Base
  import opened Text

  /** The body fields the chains name; `SkillItem(i)` is the wildcard `skills.*` at index `i`. */
  datatype Field =
    | Name | Email | Password | Role | CurrentPassword | NewPassword | Token
    | Title | Description | Requirements | Location | EmploymentType | ExperienceLevel | Status
    | SalaryMin | SalaryMax | Skills | SkillItem(index: nat)

  /** One validator with its `withMessage`. */
  datatype Rule =
    | NameLength | NameLetters | EmailFormat | PasswordLength | PasswordStrength | RoleValue
    | CurrentPasswordRequired | NewPasswordLength | NewPasswordStrength | NewPasswordDiffers | TokenRequired
    | TitleLength | DescriptionLength | RequirementsLength | LocationLength
    | EmploymentTypeValue | ExperienceLevelValue | StatusValue
    | SalaryMinPositive | SalaryMaxPositive | SalaryMaxAboveMin | SkillsCount | SkillLength

  /** The value an error reports: the field as the chain saw it at that point. */
  datatype Given = Missing | Text(text: string) | Number(n: int) | Texts(items: seq<string>)

  /** An entry of `validationResult(req)`. */
  datatype FieldError = FieldError(field: Field, rule: Rule, value: Given)

  /** An entry of the 400 reply: `{ field, message, value }`. */
  datatype ReplyError = ReplyError(field: string, message: string, value: Given)

  /** The number a string of decimal digits spells. */
  function DigitsValue(s: string): int {
    if s == [] then 0 else 10 * DigitsValue(s[..|s| - 1]) + (s[|s| - 1] as int - '0' as int)
  }

  /** Decimal digits of a natural number, as an array path prints its index: they spell `n`,
      with no leading zero. */
  function Decimal(n: nat): (r: string)
    ensures |r| > 0 && forall i :: 0 <= i < |r| ==> '0' <= r[i] <= '9'
    ensures DigitsValue(r) == n
    ensures |r| > 1 ==> r[0] != '0'
  {
    if n < 10 then [(('0' as int) + n) as char] else Decimal(n / 10) + [(('0' as int) + n % 10) as char]
  }

  /** The error's `path`. */
  function Path(f: Field): string {
    match f
    case Name => "name" case Email => "email" case Password => "password" case Role => "role"
    case CurrentPassword => "currentPassword" case NewPassword => "newPassword" case Token => "token"
    case Title => "title" case Description => "description" case Requirements => "requirements"
    case Location => "location" case EmploymentType => "employmentType" case ExperienceLevel => "experienceLevel"
    case Status => "status" case SalaryMin => "salaryMin" case SalaryMax => "salaryMax" case Skills => "skills"
    case SkillItem(i) => "skills[" + Decimal(i) + "]"
  }

  /** The error's `msg`. */
  function Message(rule: Rule): string {
    match rule
    case NameLength => "Nome deve ter entre 2 e 100 caracteres"
    case NameLetters => "Nome deve conter apenas letras e espaços"
    case EmailFormat => "Email deve ter um formato válido"
    case PasswordLength => "Senha deve ter pelo menos 8 caracteres"
    case PasswordStrength => "Senha deve conter pelo menos: 1 letra minúscula, 1 maiúscula, 1 número e 1 caractere especial"
    case RoleValue => "Role deve ser admin ou candidate"
    case CurrentPasswordRequired => "Senha atual é obrigatória"
    case NewPasswordLength => "Nova senha deve ter pelo menos 8 caracteres"
    case NewPasswordStrength => "Nova senha deve conter pelo menos: 1 letra minúscula, 1 maiúscula, 1 número e 1 caractere especial"
    case NewPasswordDiffers => "Nova senha deve ser diferente da senha atual"
    case TokenRequired => "Token é obrigatório"
    case TitleLength => "Título deve ter entre 5 e 100 caracteres"
    case DescriptionLength => "Descrição deve ter entre 20 e 2000 caracteres"
    case RequirementsLength => "Requisitos devem ter entre 10 e 1000 caracteres"
    case LocationLength => "Localização deve ter entre 2 e 100 caracteres"
    case EmploymentTypeValue => "Tipo de emprego deve ser: full-time, part-time, contract ou internship"
    case ExperienceLevelValue => "Nível de experiência deve ser: entry, mid, senior ou lead"
    case StatusValue => "Status deve ser: draft, published ou closed"
    case SalaryMinPositive => "Salário mínimo deve ser um número positivo"
    case SalaryMaxPositive => "Salário máximo deve ser um número positivo"
    case SalaryMaxAboveMin => "Salário máximo deve ser maior que o salário mínimo"
    case SkillsCount => "Máximo de 20 skills permitidas"
    case SkillLength => "Cada skill deve ter entre 2 e 50 caracteres"
  }

  /** What `handleValidationErrors` does: call `next`, or answer 400 with every error. */
  datatype Verdict = Proceed | Invalid(status: int, message: string, errors: seq<ReplyError>)

  /** `handleValidationErrors`: the request goes on exactly when no validator failed; otherwise
      the reply lists every error, in order, with its path, message and value. */
  function HandleValidationErrors(errors: seq<FieldError>): (v: Verdict)
    ensures v.Proceed? <==> errors == []
    ensures v.Invalid? ==> v.status == 400 && v.message == "Dados inválidos" && |v.errors| == |errors|
    ensures v.Invalid? ==> forall i :: 0 <= i < |errors| ==>
      v.errors[i] == ReplyError(Path(errors[i].field), Message(errors[i].rule), errors[i].value)
  {
    if errors == [] then Proceed
    else Invalid(400, "Dados inválidos",
                 seq(|errors|, i requires 0 <= i < |errors| =>
                   ReplyError(Path(errors[i].field), Message(errors[i].rule), errors[i].value)))
  }

  /** One validator: no error when it passes, one error when it fails. */
  function Check(passes: bool, field: Field, rule: Rule, value: Given): (r: seq<FieldError>)
    ensures r == [] <==> passes
    ensures !passes ==> r == [FieldError(field, rule, value)]
  {
    if passes then [] else [FieldError(field, rule, value)]
  }

  /** Standard validators read a missing value as the empty string. */
  function AsText(v: Option<string>): string {
    v.GetOr("")
  }

  function Raw(v: Option<string>): Given {
    if v.Some? then Text(v.value) else Missing
  }

  predicate LengthIn(s: string, lo: nat, hi: nat) {
    lo <= |s| <= hi
  }

  // ---- name: /^[a-zA-ZÀ-ÿ\s]+$/ ----

  /** The class `[a-zA-ZÀ-ÿ\s]`; `À-ÿ` is the whole range U+00C0..U+00FF. */
  predicate NameChar(c: char) {
    ('a' <= c <= 'z') || ('A' <= c <= 'Z') || (0xC0 <= c as int <= 0xFF) || IsSpace(c)
  }

  predicate NamePattern(s: string) {
    |s| > 0 && forall i :: 0 <= i < |s| ==> NameChar(s[i])
  }

  /** The range `À-ÿ` also admits the multiplication and division signs. */
  lemma NameAdmitsOperatorSigns()
    ensures NamePattern("Ana × ÷")
  {}

  // ---- password: /^(?=.*[a-z])(?=.*[A-Z])(?=.*\d)(?=.*[@$!%*?&])[A-Za-z\d@$!%*?&]/ ----

  predicate IsAsciiLower(c: char) { 'a' <= c <= 'z' }
  predicate IsAsciiUpper(c: char) { 'A' <= c <= 'Z' }
  predicate IsAsciiDigit(c: char) { '0' <= c <= '9' }
  predicate IsPasswordSpecial(c: char) { c == '@' || c == '$' || c == '!' || c == '%' || c == '*' || c == '?' || c == '&' }

  predicate PasswordClass(c: char) {
    IsAsciiLower(c) || IsAsciiUpper(c) || IsAsciiDigit(c) || IsPasswordSpecial(c)
  }

  predicate HasLower(s: string) { exists i :: 0 <= i < |s| && IsAsciiLower(s[i]) }
  predicate HasUpper(s: string) { exists i :: 0 <= i < |s| && IsAsciiUpper(s[i]) }
  predicate HasDigit(s: string) { exists i :: 0 <= i < |s| && IsAsciiDigit(s[i]) }
  predicate HasSpecial(s: string) { exists i :: 0 <= i < |s| && IsPasswordSpecial(s[i]) }

  /** The first line terminator at or after `from`, or the length: how far `.*` reaches. */
  function LineEnd(s: string, from: nat): (n: nat)
    requires from <= |s|
    ensures from <= n <= |s|
    ensures forall i :: from <= i < n ==> !IsLineTerminator(s[i])
    ensures n == |s| || IsLineTerminator(s[n])
    decreases |s| - from
  {
    if from == |s| || IsLineTerminator(s[from]) then from else LineEnd(s, from + 1)
  }

  /** The text before the first line terminator. */
  function FirstLine(s: string): (r: string)
    ensures |r| <= |s| && r == s[..|r|]
    ensures forall i :: 0 <= i < |r| ==> !IsLineTerminator(r[i])
    ensures |r| < |s| ==> IsLineTerminator(s[|r|])
  {
    s[..LineEnd(s, 0)]
  }

  /** The regular expression as written: the four lookaheads must each find their character on
      the first line, and only the first character is tested against the class; the end of the
      input is not anchored. */
  predicate PasswordPattern(s: string) {
    |s| > 0 && PasswordClass(s[0])
    && var line := FirstLine(s);
       HasLower(line) && HasUpper(line) && HasDigit(line) && HasSpecial(line)
  }

  /** Appending text never shortens the first line. */
  lemma FirstLineOfConcat(s: string, t: string)
    ensures |FirstLine(s)| <= |FirstLine(s + t)|
    ensures FirstLine(s) == FirstLine(s + t)[..|FirstLine(s)|]
  {
    var n := |FirstLine(s)|;
    var m := |FirstLine(s + t)|;
    assert FirstLine(s + t)[..n] == (s + t)[..n] == s[..n];
  }

  /** Since the end is not anchored, anything appended to a matching password still matches. */
  lemma PasswordPatternExtends(s: string, t: string)
    requires PasswordPattern(s)
    ensures PasswordPattern(s + t)
  {
    var l := FirstLine(s);
    var l' := FirstLine(s + t);
    FirstLineOfConcat(s, t);
    assert (s + t)[0] == s[0];
    var i :| 0 <= i < |l| && IsAsciiLower(l[i]);
    assert l'[i] == l[i];
    var j :| 0 <= j < |l| && IsAsciiUpper(l[j]);
    assert l'[j] == l[j];
    var k :| 0 <= k < |l| && IsAsciiDigit(l[k]);
    assert l'[k] == l[k];
    var m :| 0 <= m < |l| && IsPasswordSpecial(l[m]);
    assert l'[m] == l[m];
  }

  /** Characters outside the class, here spaces, are accepted after the first one. */
  lemma PasswordAdmitsSpaces()
    ensures PasswordPattern("Aa1!    ") && |"Aa1!    "| >= 8
  {
    var s := "Aa1!";
    assert FirstLine(s) == s by {
      assert forall i :: 0 <= i < |s| ==> !IsLineTerminator(s[i]);
    }
    assert IsAsciiUpper(s[0]) && IsAsciiLower(s[1]) && IsAsciiDigit(s[2]) && IsPasswordSpecial(s[3]);
    PasswordPatternExtends(s, "    ");
    assert s + "    " == "Aa1!    ";
  }

  /** An upper-case letter after a line break does not count. */
  lemma PasswordIgnoresLaterLines()
    ensures !PasswordPattern("abc1!def\nX") && |"abc1!def\nX"| >= 8
  {
    var s := "abc1!def\nX";
    assert IsLineTerminator(s[8]);
    assert forall i :: 0 <= i < 8 ==> !IsLineTerminator(s[i]) && !IsAsciiUpper(s[i]);
    assert |FirstLine(s)| == 8;
  }

  /** `isLength({ min: 8 })` followed by `matches(...)`, on the raw value. */
  function PasswordErrors(field: Field, password: Option<string>, lengthRule: Rule, patternRule: Rule)
    : (r: seq<FieldError>)
    ensures r == [] <==> |AsText(password)| >= 8 && PasswordPattern(AsText(password))
    ensures forall e :: e in r ==> e.field == field
  {
    Check(|AsText(password)| >= 8, field, lengthRule, Raw(password))
    + Check(PasswordPattern(AsText(password)), field, patternRule, Raw(password))
  }

  // ---- validateRegister ----

  datatype RegisterBody = RegisterBody(name: Option<string>, email: Option<string>, password: Option<string>, role: Option<string>)

  /** `trim().isLength({ min: 2, max: 100 }).matches(...)` on the name. */
  function NameErrors(name: string): (r: seq<FieldError>)
    ensures r == [] <==> LengthIn(name, 2, 100) && NamePattern(name)
    ensures forall e :: e in r ==> e.field == Name
  {
    Check(LengthIn(name, 2, 100), Name, NameLength, Text(name)) + Check(NamePattern(name), Name, NameLetters, Text(name))
  }

  /** A missing name reads as "" and fails both of its validators, so it is reported twice. */
  lemma MissingNameReportedTwice()
    ensures NameErrors(Trim(AsText(None))) == [FieldError(Name, NameLength, Text("")), FieldError(Name, NameLetters, Text(""))]
  {
    assert Trim("") == "";
  }

  /** `validateRegister`: trimmed name of 2..100 name characters, a trimmed e-mail address,
      a password of at least 8 characters matching the pattern, and an optional known role. */
  function ValidateRegister(body: RegisterBody, isEmail: string -> bool): (r: seq<FieldError>)
    ensures r == [] <==>
      (var name := Trim(AsText(body.name));
       LengthIn(name, 2, 100) && NamePattern(name)
       && isEmail(Trim(AsText(body.email)))
       && |AsText(body.password)| >= 8 && PasswordPattern(AsText(body.password))
       && (body.role.None? || body.role.value in ["admin", "candidate"]))

  {
    var email := Trim(AsText(body.email));
    NameErrors(Trim(AsText(body.name)))
    + Check(isEmail(email), Email, EmailFormat, Text(email))
    + PasswordErrors(Password, body.password, PasswordLength, PasswordStrength)
    + (if body.role.None? then [] else Check(body.role.value in ["admin", "candidate"], Role, RoleValue, Raw(body.role)))
  }

  /** Every error of the register chain names one of the four register fields. */
  lemma RegisterErrorFields(body: RegisterBody, isEmail: string -> bool)
    ensures forall e :: e in ValidateRegister(body, isEmail) ==> e.field in {Name, Email, Password, Role}
  {
    var email := Trim(AsText(body.email));
    var a := NameErrors(Trim(AsText(body.name)));
    var b := Check(isEmail(email), Email, EmailFormat, Text(email));
    var c := PasswordErrors(Password, body.password, PasswordLength, PasswordStrength);
    var d: seq<FieldError> := if body.role.None? then [] else Check(body.role.value in ["admin", "candidate"], Role, RoleValue, Raw(body.role));
    assert ValidateRegister(body, isEmail) == a + b + c + d;
    forall e | e in a + b + c + d ensures e.field in {Name, Email, Password, Role} {
      assert e in a || e in b || e in c || e in d;
    }
  }

  // ---- validateChangePassword / validateResetPassword ----

  datatype ChangePasswordBody = ChangePasswordBody(currentPassword: Option<string>, newPassword: Option<string>)

  /** `validateChangePassword`: a non-empty current password, and a new password that meets the
      password rules and is not strictly equal to the current one. */
  function ValidateChangePassword(body: ChangePasswordBody): (r: seq<FieldError>)
    ensures r == [] <==>
      AsText(body.currentPassword) != ""
      && |AsText(body.newPassword)| >= 8 && PasswordPattern(AsText(body.newPassword))
      && body.newPassword != body.currentPassword
    ensures forall e :: e in r ==> e.field in {CurrentPassword, NewPassword}
  {
    Check(AsText(body.currentPassword) != "", CurrentPassword, CurrentPasswordRequired, Raw(body.currentPassword))
    + PasswordErrors(NewPassword, body.newPassword, NewPasswordLength, NewPasswordStrength)
    + Check(body.newPassword != body.currentPassword, NewPassword, NewPasswordDiffers, Raw(body.newPassword))
  }

  /** Reusing the current password is refused however strong it is. */
  lemma SamePasswordRefused(password: string)
    ensures FieldError(NewPassword, NewPasswordDiffers, Text(password)) in ValidateChangePassword(ChangePasswordBody(Some(password), Some(password)))
  {}

  datatype ResetPasswordBody = ResetPasswordBody(token: Option<string>, newPassword: Option<string>)

  /** `validateResetPassword`: a non-empty token and a new password meeting the password rules. */
  function ValidateResetPassword(body: ResetPasswordBody): (r: seq<FieldError>)
    ensures r == [] <==> AsText(body.token) != "" && |AsText(body.newPassword)| >= 8 && PasswordPattern(AsText(body.newPassword))
    ensures forall e :: e in r ==> e.field in {Token, NewPassword}
  {
    Check(AsText(body.token) != "", Token, TokenRequired, Raw(body.token))
    + PasswordErrors(NewPassword, body.newPassword, NewPasswordLength, NewPasswordStrength)
  }

  /** The change rules are the reset rules on the new password plus the checks against the
      current one. */
  lemma ChangeImpliesResetRules(current: string, newPassword: Option<string>, token: string)
    requires token != ""
    requires ValidateChangePassword(ChangePasswordBody(Some(current), newPassword)) == []
    ensures ValidateResetPassword(ResetPasswordBody(Some(token), newPassword)) == []
  {}

  // ---- validateJobCreate / validateJobUpdate ----

  datatype JobBody = JobBody(
    title: Option<string>, description: Option<string>, requirements: Option<string>, location: Option<string>,
    employmentType: Option<string>, experienceLevel: Option<string>, status: Option<string>,
    salaryMin: Option<int>, salaryMax: Option<int>, skills: Option<seq<string>>)

  const EmploymentTypes: seq<string> := ["full-time", "part-time", "contract", "internship"]
  const ExperienceLevels: seq<string> := ["entry", "mid", "senior", "lead"]
  const JobStatuses: seq<string> := ["draft", "published", "closed"]

  /** `body('skills.*').trim().isLength({ min: 2, max: 50 })`: one error per element, from `from` on. */
  function SkillItemErrors(items: seq<string>, from: nat): (r: seq<FieldError>)
    requires from <= |items|
    ensures r == [] <==> forall i :: from <= i < |items| ==> LengthIn(Trim(items[i]), 2, 50)
    ensures |r| <= |items| - from
    decreases |items| - from
  {
    if from == |items| then []
    else Check(LengthIn(Trim(items[from]), 2, 50), SkillItem(from), SkillLength, Text(Trim(items[from])))
         + SkillItemErrors(items, from + 1)
  }

  /** Salaries are non-negative, a maximum below a truthy minimum is refused, and at most 20
      skills of 2..50 trimmed characters each are given. */
  predicate SalaryAndSkillsOk(body: JobBody) {
    (body.salaryMin.None? || body.salaryMin.value >= 0)
    && (body.salaryMax.None? || (body.salaryMax.value >= 0 && !(TruthyNumber(body.salaryMin) && body.salaryMax.value < body.salaryMin.value)))
    && (body.skills.None? || (|body.skills.value| <= 20 && forall i :: 0 <= i < |body.skills.value| ==> LengthIn(Trim(body.skills.value[i]), 2, 50)))
  }

  /** The salary and skill validators, shared by create and update. */
  function SalaryAndSkillErrors(body: JobBody): (r: seq<FieldError>)
    ensures r == [] <==> SalaryAndSkillsOk(body)
  {
    (if body.salaryMin.None? then [] else Check(body.salaryMin.value >= 0, SalaryMin, SalaryMinPositive, Number(body.salaryMin.value)))
    + (if body.salaryMax.None? then []
       else Check(body.salaryMax.value >= 0, SalaryMax, SalaryMaxPositive, Number(body.salaryMax.value))
            + Check(!(TruthyNumber(body.salaryMin) && body.salaryMax.value < body.salaryMin.value), SalaryMax,
                    SalaryMaxAboveMin, Number(body.salaryMax.value)))
    + (if body.skills.None? then []
       else Check(|body.skills.value| <= 20, Skills, SkillsCount, Texts(body.skills.value)) + SkillItemErrors(body.skills.value, 0))
  }

  /** A trimmed text field with length bounds; `required` says whether a missing one is checked. */
  function TextErrors(v: Option<string>, required: bool, field: Field, lo: nat, hi: nat, rule: Rule): (r: seq<FieldError>)
    ensures r == [] <==> (!required && v.None?) || LengthIn(Trim(AsText(v)), lo, hi)
  {
    if !required && v.None? then [] else Check(LengthIn(Trim(AsText(v)), lo, hi), field, rule, Text(Trim(AsText(v))))
  }

  /** An enumeration field; a missing required one reads as "" and fails. */
  function EnumErrors(v: Option<string>, required: bool, field: Field, values: seq<string>, rule: Rule): (r: seq<FieldError>)
    ensures r == [] <==> (!required && v.None?) || AsText(v) in values
  {
    if !required && v.None? then [] else Check(AsText(v) in values, field, rule, Raw(v))
  }

  /** The descriptive fields' rules; `required` is true on create and false on update. */
  predicate JobTextOk(body: JobBody, required: bool) {
    ((!required && body.title.None?) || LengthIn(Trim(AsText(body.title)), 5, 100))
    && ((!required && body.description.None?) || LengthIn(Trim(AsText(body.description)), 20, 2000))
    && ((!required && body.requirements.None?) || LengthIn(Trim(AsText(body.requirements)), 10, 1000))
    && ((!required && body.location.None?) || LengthIn(Trim(AsText(body.location)), 2, 100))
    && ((!required && body.employmentType.None?) || AsText(body.employmentType) in EmploymentTypes)
    && ((!required && body.experienceLevel.None?) || AsText(body.experienceLevel) in ExperienceLevels)
  }

  function JobTextErrors(body: JobBody, required: bool): (r: seq<FieldError>)
    ensures r == [] <==> JobTextOk(body, required)
  {
    TextErrors(body.title, required, Title, 5, 100, TitleLength)
    + TextErrors(body.description, required, Description, 20, 2000, DescriptionLength)
    + TextErrors(body.requirements, required, Requirements, 10, 1000, RequirementsLength)
    + TextErrors(body.location, required, Location, 2, 100, LocationLength)
    + EnumErrors(body.employmentType, required, EmploymentType, EmploymentTypes, EmploymentTypeValue)
    + EnumErrors(body.experienceLevel, required, ExperienceLevel, ExperienceLevels, ExperienceLevelValue)
  }

  /** `validateJobCreate`: every descriptive field present and in bounds; the status is not checked. */
  function ValidateJobCreate(body: JobBody): (r: seq<FieldError>)
    ensures r == [] <==> JobTextOk(body, true) && SalaryAndSkillsOk(body)
  {
    JobTextErrors(body, true) + SalaryAndSkillErrors(body)
  }

  /** `validateJobUpdate`: every field optional, and a given status must be one of the three. */
  function ValidateJobUpdate(body: JobBody): (r: seq<FieldError>)
    ensures r == [] <==> JobTextOk(body, false) && (body.status.None? || body.status.value in JobStatuses) && SalaryAndSkillsOk(body)
  {
    JobTextErrors(body, false) + EnumErrors(body.status, false, Status, JobStatuses, StatusValue) + SalaryAndSkillErrors(body)
  }

  /** An empty update passes; an empty create does not. */
  lemma EmptyBodies()
    ensures ValidateJobUpdate(JobBody(None, None, None, None, None, None, None, None, None, None)) == []
    ensures ValidateJobCreate(JobBody(None, None, None, None, None, None, None, None, None, None)) != []
  {
    assert Trim("") == "";
  }

  /** Any body the create rules accept is accepted as an update, once its status is valid. */
  lemma CreateRulesImplyUpdateRules(body: JobBody)
    requires ValidateJobCreate(body) == []
    requires body.status.None? || body.status.value in JobStatuses
    ensures ValidateJobUpdate(body) == []
  {}

  /** Equal bounds pass, and a zero minimum is falsy, so no maximum is compared with it. */
  lemma SalaryBoundsQuirks(body: JobBody, n: nat, m: nat)
    ensures SalaryAndSkillErrors(body.(salaryMin := Some(n), salaryMax := Some(n), skills := None)) == []
    ensures SalaryAndSkillErrors(body.(salaryMin := Some(0), salaryMax := Some(m), skills := None)) == []
    ensures m < n ==> SalaryAndSkillErrors(body.(salaryMin := Some(n), salaryMax := Some(m), skills := None)) != []
  {}

  /** Twenty-one skills are refused even when each is fine. */
  lemma TooManySkills(body: JobBody, skills: seq<string>)
    requires |skills| > 20
    ensures FieldError(Skills, SkillsCount, Texts(skills)) in SalaryAndSkillErrors(body.(skills := Some(skills)))
  {}
}
