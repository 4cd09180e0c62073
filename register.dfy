/**
 * The registration page (frontend/src/pages/Register/Register.tsx): the
 * password-strength meter, the form check before submitting, the mapping of
 * a Django REST framework error body onto the form's fields, and the
 * register-then-login sequence.
 */
module Register {
  import opened Wrappers
  import opened Text
  import opened Json
  import Js
  import Api

  /** `!!s && /^\d+$/.test(s)`. */
  predicate IsNumericOnly(s: string) {
    s != "" && AllDigits(s)
  }

  predicate IsAsciiLetter(c: char) { 'A' <= c <= 'Z' || 'a' <= c <= 'z' }

  predicate HasLetter(s: string) { exists i :: 0 <= i < |s| && IsAsciiLetter(s[i]) }

  predicate HasDigit(s: string) { exists i :: 0 <= i < |s| && IsDigit(s[i]) }

  /** `/[^A-Za-z0-9]/`: some character that is neither an ASCII letter nor a digit. */
  predicate HasSymbol(s: string) { exists i :: 0 <= i < |s| && !IsAsciiLetter(s[i]) && !IsDigit(s[i]) }

  /** The four things the meter rewards. */
  datatype Criterion = LongEnough | NotOnlyDigits | LettersAndDigits | Symbol

  /** The criteria a password meets. */
  function Met(password: string): set<Criterion> {
    (if Js.Length(password) >= 6 then {LongEnough} else {})
    + (if !IsNumericOnly(password) then {NotOnlyDigits} else {})
    + (if HasLetter(password) && HasDigit(password) then {LettersAndDigits} else {})
    + (if HasSymbol(password) then {Symbol} else {})
  }

  /** `strength(password)`: one point per criterion met, capped at 4. */
  method Strength(password: string) returns (score: int)
    ensures score == |Met(password)|
    ensures 0 <= score <= 4
  {
    score := 0;
    if Js.Length(password) >= 6 { score := score + 1; }
    if !IsNumericOnly(password) { score := score + 1; }
    if HasLetter(password) && HasDigit(password) { score := score + 1; }
    if HasSymbol(password) { score := score + 1; }
    CriteriaCount(password);
    score := if score < 4 then score else 4;
  }

  lemma CriteriaCount(password: string)
    ensures |Met(password)| == (if Js.Length(password) >= 6 then 1 else 0) + (if !IsNumericOnly(password) then 1 else 0)
      + (if HasLetter(password) && HasDigit(password) then 1 else 0) + (if HasSymbol(password) then 1 else 0)
  {
    var a: set<Criterion> := if Js.Length(password) >= 6 then {LongEnough} else {};
    var b: set<Criterion> := if !IsNumericOnly(password) then {NotOnlyDigits} else {};
    var c: set<Criterion> := if HasLetter(password) && HasDigit(password) then {LettersAndDigits} else {};
    var d: set<Criterion> := if HasSymbol(password) then {Symbol} else {};
    assert a !! b && (a + b) !! c && (a + b + c) !! d;
    assert |a + b| == |a| + |b|;
    assert |a + b + c| == |a + b| + |c|;
  }

  /** An empty password scores 1: it is not made only of digits. */
  lemma EmptyPasswordStrength()
    ensures Met("") == {NotOnlyDigits}
  {
  }

  /** A long password made only of digits scores 1: only its length counts. */
  lemma DigitPasswordStrength(password: string)
    requires |password| >= 6 && AllDigits(password)
    ensures Met(password) == {LongEnough}
  {
    forall i | 0 <= i < |password| ensures !IsAsciiLetter(password[i]) {
      assert IsDigit(password[i]);
    }
  }

  /** Three emoji are six UTF-16 code units, so they pass the six-character rule. */
  lemma ThreeEmojiLongEnough()
    ensures |"\U{1F600}\U{1F600}\U{1F600}"| == 3
    ensures Met("\U{1F600}\U{1F600}\U{1F600}") == {LongEnough, NotOnlyDigits, Symbol}
  {
    var p := "\U{1F600}\U{1F600}\U{1F600}";
    assert Js.Length(p) == 6 by {
      assert p[1..][1..][1..] == [];
    }
    assert !IsAsciiLetter(p[0]) && !IsDigit(p[0]);
    assert !HasLetter(p) && !HasDigit(p);
  }

  /** The messages shown next to the form's fields; `passwordCommon` marks a "too common" password. */
  datatype FieldErrors = FieldErrors(
    name: Option<string>,
    email: Option<string>,
    password: Option<string>,
    agree: Option<string>,
    general: Option<string>,
    passwordCommon: Option<bool>)

  const NoErrors := FieldErrors(None, None, None, None, None, None)

  /** Whether a message is shown: JavaScript truthiness of an optional string. */
  predicate Shown(m: Option<string>) { m.Some? && m.value != "" }

  predicate HasFormErrors(e: FieldErrors) {
    e.name.Some? || e.email.Some? || e.password.Some? || e.agree.Some?
  }

  datatype Form = Form(name: string, email: string, password: string, agree: bool)

  /** The password's single error, checked in order: missing, shorter than 6, only digits. */
  function PasswordError(password: string): (e: Option<string>)
    ensures e.None? <==> Js.Length(password) >= 6 && !IsNumericOnly(password)
    ensures password == "" ==> e == Some("Введите пароль")
    ensures password != "" && Js.Length(password) < 6 ==> e == Some("Пароль должен быть не короче 6 символов")
    ensures Js.Length(password) >= 6 && IsNumericOnly(password) ==> e == Some("Пароль не должен состоять только из цифр")
  {
    if password == "" then Some("Введите пароль")
    else if Js.Length(password) < 6 then Some("Пароль должен быть не короче 6 символов")
    else if IsNumericOnly(password) then Some("Пароль не должен состоять только из цифр")
    else None
  }

  /** A form that `onSubmit` sends. */
  predicate FormValid(form: Form) {
    Trim(form.name) != "" && Trim(form.email) != "" && PasswordError(form.password).None? && form.agree
  }

  /** The messages `onSubmit` collects for a form: there are some exactly when the form is not sent. */
  function FormErrors(form: Form): (errors: FieldErrors)
    ensures HasFormErrors(errors) <==> !FormValid(form)
  {
    NoErrors.(
      name := if Trim(form.name) == "" then Some("Укажите имя/название") else None,
      email := if Trim(form.email) == "" then Some("Укажите email") else None,
      password := PasswordError(form.password),
      agree := if !form.agree then Some("Нужно согласиться с условиями") else None)
  }

  /** The checks at the top of `onSubmit`, filling one message per failing field. */
  method Validate(form: Form) returns (errors: FieldErrors)
    ensures errors == FormErrors(form)
    ensures errors.name == (if Trim(form.name) == "" then Some("Укажите имя/название") else None)
    ensures errors.email == (if Trim(form.email) == "" then Some("Укажите email") else None)
    ensures errors.password == PasswordError(form.password)
    ensures errors.agree == (if !form.agree then Some("Нужно согласиться с условиями") else None)
    ensures errors.general == None && errors.passwordCommon == None
    ensures HasFormErrors(errors) <==> !FormValid(form)
  {
    errors := NoErrors;
    if Trim(form.name) == "" { errors := errors.(name := Some("Укажите имя/название")); }
    if Trim(form.email) == "" { errors := errors.(email := Some("Укажите email")); }
    if form.password == "" {
      errors := errors.(password := Some("Введите пароль"));
    } else if Js.Length(form.password) < 6 {
      errors := errors.(password := Some("Пароль должен быть не короче 6 символов"));
    } else if IsNumericOnly(form.password) {
      errors := errors.(password := Some("Пароль не должен состоять только из цифр"));
    }
    if !form.agree { errors := errors.(agree := Some("Нужно согласиться с условиями")); }
  }

  /** `setField(key, v)`: the edited field's message and the general message disappear. */
  function ClearOnEdit(errors: FieldErrors, key: string): (r: FieldErrors)
    ensures r.general == None
    ensures key == "name" ==> r.name == None
    ensures key == "email" ==> r.email == None
    ensures key == "password" ==> r.password == None
    ensures key == "agree" ==> r.agree == None
    ensures key != "name" ==> r.name == errors.name
    ensures key != "email" ==> r.email == errors.email
    ensures key != "password" ==> r.password == errors.password
    ensures key != "agree" ==> r.agree == errors.agree
    ensures r.passwordCommon == errors.passwordCommon
  {
    var e := errors.(general := None);
    if key == "name" then e.(name := None)
    else if key == "email" then e.(email := None)
    else if key == "password" then e.(password := None)
    else if key == "agree" then e.(agree := None)
    else e
  }

  /** `String(x[0] || x)` as written: for a string `x` this is only its first character. */
  function FirstMessageAsWritten(x: Json, showNumber: Js.Num -> string): (m: string)
    ensures x.JStr? && x.s != "" ==> m == [x.s[0]]
    ensures x.JArr? && x.items != [] && Truthy(Some(x.items[0])) ==> m == ToJsString(x.items[0], showNumber)
    ensures x.JObj? && "0" in x.fields && Truthy(Some(x.fields["0"])) ==> m == ToJsString(x.fields["0"], showNumber)
    ensures !Truthy(First(x)) ==> m == ToJsString(x, showNumber)
  {
    var first := First(x);
    if Truthy(first) then ToJsString(first.value, showNumber) else ToJsString(x, showNumber)
  }

  /** A server message "This field is required." under `email` is cut down to "T". */
  lemma FirstMessageTruncatesString(showNumber: Js.Num -> string)
    ensures FirstMessageAsWritten(JStr("This field is required."), showNumber) == "T"
  {
  }

  /** An object error with an own key "0" shows that entry, as `x[0]` reads it. */
  lemma FirstMessageReadsKeyZero(showNumber: Js.Num -> string)
    ensures FirstMessageAsWritten(JObj(map["0" := JStr("bad")]), showNumber) == "bad"
    ensures FirstMessage(JObj(map["0" := JStr("bad")]), showNumber) == "bad"
  {
  }

  /**
   * The message of a field error as evidently intended: the first message of
   * a list, a string as it stands, anything else as `String(x)`.
   */
  function FirstMessage(x: Json, showNumber: Js.Num -> string): (m: string)
    ensures x.JStr? ==> m == x.s
    ensures x.JArr? && x.items != [] && Truthy(Some(x.items[0])) ==> m == ToJsString(x.items[0], showNumber)
    ensures x.JObj? && "0" in x.fields && Truthy(Some(x.fields["0"])) ==> m == ToJsString(x.fields["0"], showNumber)
    ensures !x.JStr? && !Truthy(First(x)) ==> m == ToJsString(x, showNumber)
    ensures !x.JStr? ==> m == FirstMessageAsWritten(x, showNumber)
  {
    if x.JStr? then x.s else FirstMessageAsWritten(x, showNumber)
  }

  /** The password messages: the list itself, or the single value as a one-element list. */
  function PasswordMessages(x: Json, showNumber: Js.Num -> string): (ms: seq<string>)
    ensures x.JArr? ==> |ms| == |x.items| && forall i :: 0 <= i < |ms| ==> ms[i] == ItemString(x.items[i], showNumber)
    ensures !x.JArr? ==> ms == [ToJsString(x, showNumber)]
  {
    if x.JArr? then seq(|x.items|, i requires 0 <= i < |x.items| => ItemString(x.items[i], showNumber))
    else [ToJsString(x, showNumber)]
  }

  /** `/too common/i.test(m)`. */
  predicate TooCommon(m: string) { ContainsIgnoreCase(m, "too common") }

  function AnyTooCommon(ms: seq<string>): (r: bool)
    ensures r <==> exists i :: 0 <= i < |ms| && TooCommon(ms[i])
  {
    if ms == [] then false
    else TooCommon(ms[0]) || (assert forall i :: 0 < i < |ms| ==> ms[i] == ms[1..][i - 1]; AnyTooCommon(ms[1..]))
  }

  const RegisterFailed := "Ошибка регистрации"

  /** The general message the body names: `detail` wins over `non_field_errors`. */
  function GeneralMessage(data: Json, showNumber: Js.Num -> string): (g: Option<string>)
    ensures Truthy(Field(data, "detail")) ==> g == Some(ToJsString(Field(data, "detail").value, showNumber))
    ensures !Truthy(Field(data, "detail")) && Truthy(Field(data, "non_field_errors")) ==>
      g == Some(FirstMessage(Field(data, "non_field_errors").value, showNumber))
    ensures !Truthy(Field(data, "detail")) && !Truthy(Field(data, "non_field_errors")) ==> g == None
  {
    if Truthy(Field(data, "detail")) then Some(ToJsString(Field(data, "detail").value, showNumber))
    else if Truthy(Field(data, "non_field_errors")) then Some(FirstMessage(Field(data, "non_field_errors").value, showNumber))
    else None
  }

  /** The e-mail field's message: `email` wins over `username` (the login is the e-mail). */
  function EmailMessage(data: Json, showNumber: Js.Num -> string): (m: Option<string>)
    ensures Truthy(Field(data, "email")) ==> m == Some(FirstMessage(Field(data, "email").value, showNumber))
    ensures !Truthy(Field(data, "email")) && Truthy(Field(data, "username")) ==>
      m == Some(FirstMessage(Field(data, "username").value, showNumber))
    ensures !Truthy(Field(data, "email")) && !Truthy(Field(data, "username")) ==> m == None
  {
    if Truthy(Field(data, "email")) then Some(FirstMessage(Field(data, "email").value, showNumber))
    else if Truthy(Field(data, "username")) then Some(FirstMessage(Field(data, "username").value, showNumber))
    else None
  }

  /**
   * `parseServerError`: a body that is not JSON, or is JSON null (reading a
   * key of null throws), becomes the general message; otherwise the
   * recognised keys fill the fields (the password's messages joined with
   * spaces, flagged when one says "too common"), and a non-empty body that
   * fills no field is shown as it is.
   */
  function ParseServerError(text: string, parsed: Option<Json>, showNumber: Js.Num -> string): (fe: FieldErrors)
    ensures parsed.None? || parsed == Some(JNull) ==>
      fe == NoErrors.(general := Some(if text != "" then text else RegisterFailed))
    ensures fe.name == None && fe.agree == None
    ensures parsed.Some? && !parsed.value.JNull? ==>
      fe.email == EmailMessage(parsed.value, showNumber)
      && (fe.password.Some? <==> Truthy(Field(parsed.value, "password")))
      && (fe.passwordCommon.Some? <==> Truthy(Field(parsed.value, "password")))
    ensures parsed.Some? && !parsed.value.JNull? && Truthy(Field(parsed.value, "password")) ==>
      var ms := PasswordMessages(Field(parsed.value, "password").value, showNumber);
      fe.password == Some(Join(ms, " ")) && fe.passwordCommon == Some(exists i :: 0 <= i < |ms| && TooCommon(ms[i]))
    ensures parsed.Some? && !parsed.value.JNull? ==>
      var recognised := GeneralMessage(parsed.value, showNumber);
      fe.general == (if !Shown(fe.email) && !Shown(fe.password) && !Shown(recognised) && text != "" then Some(text) else recognised)
  {
    if parsed.None? || parsed.value.JNull? then
      NoErrors.(general := Some(if text != "" then text else RegisterFailed))
    else
      var data := parsed.value;
      var password := Field(data, "password");
      var ms := if Truthy(password) then PasswordMessages(password.value, showNumber) else [];
      var fe := NoErrors.(
        email := EmailMessage(data, showNumber),
        password := if Truthy(password) then Some(Join(ms, " ")) else None,
        passwordCommon := if Truthy(password) then Some(AnyTooCommon(ms)) else None,
        general := GeneralMessage(data, showNumber));
      if !Shown(fe.email) && !Shown(fe.password) && !Shown(fe.general) && text != "" then fe.(general := Some(text))
      else fe
  }

  /** A body the server sends for a taken e-mail keeps the message under the e-mail field. */
  lemma ParseTakenEmail(showNumber: Js.Num -> string)
    ensures ParseServerError("{...}", Some(JObj(map["email" := JArr([JStr("user with this email already exists.")])])), showNumber).email
         == Some("user with this email already exists.")
  {
    var data := JObj(map["email" := JArr([JStr("user with this email already exists.")])]);
    assert Field(data, "email") == Some(JArr([JStr("user with this email already exists.")]));
    assert Field(data, "username") == None;
  }

  /** A reply as the page reads it: the status check, the raw text and the parsed body (`None` when it is not JSON). */
  datatype Reply = Reply(ok: bool, text: string, json: Option<Json>)

  datatype Post =
    | RegisterPost(url: string, username: string, email: string, password: string)
    | LoginPost(url: string, email: string, password: string)

  const LoginAfterRegisterFailed := "Аккаунт создан, но вход не выполнен. Попробуйте войти вручную."
  const NetworkFailed := "Сеть недоступна или сервер не отвечает"

  /** `localStorage.setItem(k, v)` stores `String(v)`; undefined is stored as "undefined". */
  function Stored(v: Option<Json>, showNumber: Js.Num -> string): string {
    if v.None? then "undefined" else ToJsString(v.value, showNumber)
  }

  /**
   * The state after the requests of a valid form: a request that throws (or
   * a login body that is not a token object) gives the network message; a
   * failed registration maps the server's body onto the form; a failed login
   * asks to log in by hand; a successful login stores both tokens and goes
   * to the dashboard. Only that last case touches storage and location.
   */
  ghost predicate SentOutcome(register: Option<Reply>, login: Option<Reply>, showNumber: Js.Num -> string,
    storage0: map<string, string>, errors: FieldErrors, storage: map<string, string>,
    location: Option<string>, location0: Option<string>)
  {
    if register.None? then
      errors == NoErrors.(general := Some(NetworkFailed)) && storage == storage0 && location == location0
    else if !register.value.ok then
      errors == ParseServerError(register.value.text, register.value.json, showNumber) && storage == storage0 && location == location0
    else if login.None? then
      errors == NoErrors.(general := Some(NetworkFailed)) && storage == storage0 && location == location0
    else if !login.value.ok then
      errors == NoErrors.(general := Some(LoginAfterRegisterFailed)) && storage == storage0 && location == location0
    else if login.value.json.None? || login.value.json.value.JNull? then
      errors == NoErrors.(general := Some(NetworkFailed)) && storage == storage0 && location == location0
    else
      var tokens := login.value.json.value;
      errors == NoErrors
      && storage == storage0["access" := Stored(Field(tokens, "access"), showNumber)]["refresh" := Stored(Field(tokens, "refresh"), showNumber)]
      && location == Some("/dashboard")
  }

  /** The page's state: its messages, the busy flag, local storage and where it navigated. */
  class RegisterPage {
    var errors: FieldErrors
    var loading: bool
    var storage: map<string, string>
    var location: Option<string>

    constructor (storage: map<string, string>)
      ensures errors == NoErrors && !loading && this.storage == storage && location == None
    {
      errors := NoErrors;
      loading := false;
      this.storage := storage;
      location := None;
    }

    /**
     * `onSubmit`: an invalid form shows its messages and sends nothing;
     * otherwise register (a failure maps the server's body onto the form),
     * then log in with the trimmed e-mail (a failure asks to log in by
     * hand), then store both tokens and go to the dashboard. A request that
     * cannot be made, or a login body that cannot be read, shows the network
     * message. `None` for a reply means the request itself threw.
     */
    method OnSubmit(form: Form, base: string, register: Option<Reply>, login: Option<Reply>, showNumber: Js.Num -> string)
      returns (posts: seq<Post>)
      modifies this
      ensures !FormValid(form) ==>
        posts == [] && errors == FormErrors(form) && storage == old(storage) && location == old(location) && loading == old(loading)
      ensures FormValid(form) ==>
        !loading && 1 <= |posts| <= 2
        && posts[0] == RegisterPost(base + "/auth/register/", Trim(form.email), Trim(form.email), form.password)
        && (|posts| == 2 <==> register.Some? && register.value.ok)
        && (|posts| == 2 ==> posts[1] == LoginPost(base + "/auth/login/", Trim(form.email), form.password))
      ensures FormValid(form) ==> SentOutcome(register, login, showNumber, old(storage), errors, storage, location, old(location))
    {
      var checked := Validate(form);
      if HasFormErrors(checked) {
        errors := checked;
        return [];
      }
      ghost var storage0, location0 := storage, location;
      loading := true;
      var email := Trim(form.email);
      posts := Send(base, email, form.password, register, login, showNumber);
      assert SentOutcome(register, login, showNumber, storage0, errors, storage, location, location0);
      loading := false;
    }

    /** The requests of a valid form, from clearing the old messages to the last effect. */
    method Send(base: string, email: string, password: string, register: Option<Reply>, login: Option<Reply>, showNumber: Js.Num -> string)
      returns (posts: seq<Post>)
      modifies this
      ensures 1 <= |posts| <= 2 && posts[0] == RegisterPost(base + "/auth/register/", email, email, password)
      ensures |posts| == 2 <==> register.Some? && register.value.ok
      ensures |posts| == 2 ==> posts[1] == LoginPost(base + "/auth/login/", email, password)
      ensures SentOutcome(register, login, showNumber, old(storage), errors, storage, location, old(location))
      ensures loading == old(loading)
    {
      errors := NoErrors;
      posts := [RegisterPost(base + "/auth/register/", email, email, password)];
      if register.None? {
        errors := NoErrors.(general := Some(NetworkFailed));
      } else if !register.value.ok {
        errors := ParseServerError(register.value.text, register.value.json, showNumber);
      } else {
        posts := posts + [LoginPost(base + "/auth/login/", email, password)];
        if login.None? {
          errors := NoErrors.(general := Some(NetworkFailed));
        } else if !login.value.ok {
          errors := NoErrors.(general := Some(LoginAfterRegisterFailed));
        } else if login.value.json.None? || login.value.json.value.JNull? {
          errors := NoErrors.(general := Some(NetworkFailed));
        } else {
          var tokens := login.value.json.value;
          storage := storage["access" := Stored(Field(tokens, "access"), showNumber)];
          storage := storage["refresh" := Stored(Field(tokens, "refresh"), showNumber)];
          location := Some("/dashboard");
        }
      }
    }
  }
}
