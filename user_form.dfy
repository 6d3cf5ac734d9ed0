/**
 * The user form of the web client: the checks run before submitting, how editing a field
 * clears its error, and which fields are sent.
 */
module UserForm {
  import opened Common
  import opened Text

  datatype Form = Form(
    username: string,
    email: string,
    phone: string,
    password: string,
    passwordConfirm: string,
    firstName: string,
    lastName: string,
    role: string,
    status: string)

  /** A run of characters with no whitespace and no `@` (`[^\s@]+`). */
  predicate Plain(t: string)
  {
    t != [] && forall k :: 0 <= k < |t| ==> !IsSpace(t[k]) && t[k] != '@'
  }

  /** `[^\s@]+\.[^\s@]+`: plain, with a dot that is neither first nor last. */
  predicate Domain(d: string)
  {
    Plain(d) && exists k :: 0 < k < |d| - 1 && d[k] == '.'
  }

  /** `^[^\s@]+@[^\s@]+\.[^\s@]+$`: a plain name, one `@`, and a dotted plain domain. */
  predicate EmailShape(s: string)
  {
    exists i :: 0 < i < |s| && s[i] == '@' && Plain(s[..i]) && Domain(s[i + 1..])
  }

  /** The fields of the form (`keyof UserFormData`); errors are keyed by them too. */
  datatype Field = Username | Email | Phone | Password | PasswordConfirm | FirstName | LastName | Role | Status

  /** The messages of the checks. */
  const UsernameRequired := "Username is required"
  const EmailRequired := "Email is required"
  const EmailInvalid := "Invalid email format"
  const PasswordRequired := "Password is required"
  const PasswordShort := "Password must be at least 8 characters"
  const ConfirmRequired := "Please confirm password"
  const ConfirmMismatch := "Passwords do not match"

  /** The message for the username, if any; `!username.trim()` holds exactly for a blank one (`TrimBlank`). */
  function UsernameError(f: Form): Option<string>
  {
    if Blank(f.username) then Some(UsernameRequired) else None
  }

  /** The message for the email, if any: blank first, then the shape. */
  function EmailError(f: Form): Option<string>
  {
    if Blank(f.email) then Some(EmailRequired)
    else if !EmailShape(f.email) then Some(EmailInvalid)
    else None
  }

  /** The message for the password, if any; when editing, only an entered password is checked. */
  function PasswordError(f: Form, editMode: bool): Option<string>
  {
    if !editMode && f.password == "" then Some(PasswordRequired)
    else if (!editMode || f.password != "") && |f.password| < 8 then Some(PasswordShort)
    else None
  }

  /** The message for the confirmation, if any; when editing, only an entered password is checked. */
  function ConfirmError(f: Form, editMode: bool): Option<string>
  {
    if !editMode && f.passwordConfirm == "" then Some(ConfirmRequired)
    else if (!editMode || f.password != "") && f.password != f.passwordConfirm then Some(ConfirmMismatch)
    else None
  }

  /** `m` with `key` mapped to the message, when there is one. */
  function Put(m: map<Field, string>, key: Field, e: Option<string>): (r: map<Field, string>)
  {
    if e.Some? then m[key := e.value] else m
  }

  /** All the errors `validateForm` collects, keyed by field. */
  function FormErrors(f: Form, editMode: bool): map<Field, string>
  {
    var m1 := Put(map[], Username, UsernameError(f));
    var m2 := Put(m1, Email, EmailError(f));
    var m3 := Put(m2, Password, PasswordError(f, editMode));
    Put(m3, PasswordConfirm, ConfirmError(f, editMode))
  }

  /** Each field carries exactly the message its check produced, and no other field carries one. */
  lemma FormErrorsAt(f: Form, editMode: bool)
    ensures var e := FormErrors(f, editMode);
      && e.Keys <= {Username, Email, Password, PasswordConfirm}
      && (Username in e <==> UsernameError(f).Some?) && (Username in e ==> e[Username] == UsernameError(f).value)
      && (Email in e <==> EmailError(f).Some?) && (Email in e ==> e[Email] == EmailError(f).value)
      && (Password in e <==> PasswordError(f, editMode).Some?) && (Password in e ==> e[Password] == PasswordError(f, editMode).value)
      && (PasswordConfirm in e <==> ConfirmError(f, editMode).Some?)
      && (PasswordConfirm in e ==> e[PasswordConfirm] == ConfirmError(f, editMode).value)
  {
  }

  /** A blank username is the username's only error. */
  lemma UsernameErrorMeaning(f: Form)
    ensures UsernameError(f).Some? <==> Blank(f.username)
    ensures UsernameError(f).Some? ==> UsernameError(f).value == "Username is required"
  {
  }

  /** A blank email is reported as missing, any other email not of the address shape as malformed. */
  lemma EmailErrorMeaning(f: Form)
    ensures EmailError(f).Some? <==> Blank(f.email) || !EmailShape(f.email)
    ensures EmailError(f).Some? ==> EmailError(f).value == if Blank(f.email) then "Email is required" else "Invalid email format"
  {
  }

  /**
   * When creating, a password shorter than eight characters (or none) and a missing or
   * different confirmation are errors; when editing, only an entered password is checked.
   */
  lemma PasswordErrorsMeaning(f: Form, editMode: bool)
    ensures !editMode ==> (PasswordError(f, editMode).Some? <==> |f.password| < 8)
    ensures !editMode && PasswordError(f, editMode).Some? ==>
      PasswordError(f, editMode).value == if f.password == "" then "Password is required" else "Password must be at least 8 characters"
    ensures !editMode ==> (ConfirmError(f, editMode).Some? <==> f.passwordConfirm == "" || f.password != f.passwordConfirm)
    ensures editMode ==> (PasswordError(f, editMode).Some? <==> f.password != "" && |f.password| < 8)
    ensures editMode ==> (ConfirmError(f, editMode).Some? <==> f.password != "" && f.password != f.passwordConfirm)
    ensures PasswordError(f, editMode).Some? ==> PasswordError(f, editMode).value != ""
    ensures ConfirmError(f, editMode).Some? ==> ConfirmError(f, editMode).value != ""
  {
  }

  /** A form without errors has a username, a well-formed email, and a confirmed password of eight or more characters whenever one is sent. */
  lemma ValidFormGuarantees(f: Form, editMode: bool)
    requires FormErrors(f, editMode) == map[]
    ensures !Blank(f.username) && EmailShape(f.email)
    ensures !editMode || f.password != "" ==> |f.password| >= 8 && f.password == f.passwordConfirm
  {
    FormErrorsAt(f, editMode);
    UsernameErrorMeaning(f);
    EmailErrorMeaning(f);
    PasswordErrorsMeaning(f, editMode);
  }

  /** `!s.trim()`: the trimmed text is empty exactly when the text is blank. */
  method TrimmedEmpty(s: string) returns (empty: bool)
    ensures empty <==> Blank(s)
  {
    empty := Trim(s) == "";
    TrimBlank(s);
  }

  /**
   * `validateForm`: each check that fails adds its message under its field, and the form is
   * valid exactly when no message was added.
   */
  method ValidateForm(f: Form, editMode: bool) returns (errors: map<Field, string>, valid: bool)
    ensures errors == FormErrors(f, editMode)
    ensures valid <==> errors == map[]
  {
    var noUsername := TrimmedEmpty(f.username);
    var noEmail := TrimmedEmpty(f.email);
    var newErrors: map<Field, string> := map[];
    if noUsername {
      newErrors := newErrors[Username := UsernameRequired];
    }
    assert newErrors == Put(map[], Username, UsernameError(f));
    if noEmail {
      newErrors := newErrors[Email := EmailRequired];
    } else if !EmailShape(f.email) {
      newErrors := newErrors[Email := EmailInvalid];
    }
    assert newErrors == Put(Put(map[], Username, UsernameError(f)), Email, EmailError(f));
    newErrors := CheckPasswords(f, editMode, newErrors);
    errors := newErrors;
    valid := |errors.Keys| == 0;
    if !valid {
      assert errors.Keys != {};
    }
  }

  /** The password and confirmation checks of `validateForm`, added to the errors so far. */
  method CheckPasswords(f: Form, editMode: bool, m: map<Field, string>) returns (newErrors: map<Field, string>)
    ensures newErrors == Put(Put(m, Password, PasswordError(f, editMode)), PasswordConfirm, ConfirmError(f, editMode))
  {
    newErrors := m;
    if !editMode {
      if f.password == "" {
        newErrors := newErrors[Password := PasswordRequired];
      } else if |f.password| < 8 {
        newErrors := newErrors[Password := PasswordShort];
      }
      assert newErrors == Put(m, Password, PasswordError(f, editMode));
      ghost var m3 := newErrors;
      if f.passwordConfirm == "" {
        newErrors := newErrors[PasswordConfirm := ConfirmRequired];
      } else if f.password != f.passwordConfirm {
        newErrors := newErrors[PasswordConfirm := ConfirmMismatch];
      }
      assert newErrors == Put(m3, PasswordConfirm, ConfirmError(f, editMode));
    } else {
      if f.password != "" && |f.password| < 8 {
        newErrors := newErrors[Password := PasswordShort];
      }
      assert newErrors == Put(m, Password, PasswordError(f, editMode));
      ghost var m3 := newErrors;
      if f.password != "" && f.password != f.passwordConfirm {
        newErrors := newErrors[PasswordConfirm := ConfirmMismatch];
      }
      assert newErrors == Put(m3, PasswordConfirm, ConfirmError(f, editMode));
    }
  }

  /** The form with one field set. */
  function SetField(f: Form, field: Field, value: string): (r: Form)
    ensures field == Username ==> r == f.(username := value)
    ensures field == Email ==> r == f.(email := value)
    ensures field == Password ==> r == f.(password := value)
    ensures field == PasswordConfirm ==> r == f.(passwordConfirm := value)
    ensures field != Password && field != PasswordConfirm ==> r.password == f.password && r.passwordConfirm == f.passwordConfirm
  {
    match field
    case Username => f.(username := value)
    case Email => f.(email := value)
    case Phone => f.(phone := value)
    case Password => f.(password := value)
    case PasswordConfirm => f.(passwordConfirm := value)
    case FirstName => f.(firstName := value)
    case LastName => f.(lastName := value)
    case Role => f.(role := value)
    case Status => f.(status := value)
  }

  /**
   * `handleChange`: the field takes the value, and an error shown for that field is removed;
   * the errors of the other fields stay as they were.
   */
  function HandleChange(f: Form, errors: map<Field, string>, field: Field, value: string): (r: (Form, map<Field, string>))
    ensures r.0 == SetField(f, field, value)
    ensures field in errors && errors[field] != "" ==> field !in r.1
    ensures forall k :: k != field ==> (k in r.1 <==> k in errors) && (k in r.1 ==> r.1[k] == errors[k])
  {
    var next := SetField(f, field, value);
    if field in errors && errors[field] != "" then (next, errors - {field}) else (next, errors)
  }

  /** After validation, editing one field clears exactly its error. */
  lemma ChangeClearsOnlyThatField(f: Form, errors: map<Field, string>, field: Field, value: string)
    requires forall k :: k in errors ==> errors[k] != ""
    ensures HandleChange(f, errors, field, value).1 == errors - {field}
  {
  }

  /** What `handleSubmit` sends. */
  datatype Submitted = Submitted(
    username: string,
    email: string,
    phone: Option<string>,
    firstName: string,
    lastName: string,
    role: string,
    status: string,
    password: Option<string>,
    passwordConfirm: Option<string>)

  /**
   * The payload: an empty phone is null, and the password and its confirmation are sent when
   * creating, and when editing only if a password was entered.
   */
  function SubmitData(f: Form, editMode: bool): (s: Submitted)
    ensures s.password.Some? <==> !editMode || f.password != ""
    ensures s.password.Some? ==> s.password.value == f.password && s.passwordConfirm == Some(f.passwordConfirm)
    ensures s.password.None? ==> s.passwordConfirm.None?
    ensures s.phone.None? <==> f.phone == ""
  {
    var base := Submitted(f.username, f.email, if f.phone == "" then None else Some(f.phone),
                          f.firstName, f.lastName, f.role, f.status, None, None);
    if !editMode || f.password != "" then base.(password := Some(f.password), passwordConfirm := Some(f.passwordConfirm))
    else base
  }

  /** A concrete address of the usual shape passes the email check; one without a dotted domain does not. */
  lemma EmailExamples()
    ensures EmailShape("a@b.c")
    ensures !EmailShape("a@bc")
  {
    var s := "a@b.c";
    assert s[1] == '@' && s[..1] == "a" && s[2..] == "b.c";
    assert ("b.c")[1] == '.';
    var t := "a@bc";
    forall i | 0 < i < |t| && t[i] == '@'
      ensures !(Plain(t[..i]) && Domain(t[i + 1..]))
    {
      assert i == 1;
      assert t[2..] == "bc";
    }
  }
}
