/**
 * `EmailOrUsernameTokenObtainPairSerializer` (backend/users/serializers.py):
 * a login names the account by username or by e-mail. When only an e-mail is
 * given, the username of the oldest account with that address (compared
 * without case) is put into the attributes before SimpleJWT's own check,
 * which is a parameter of this model.
 */
module UserSerializers {
  import opened Wrappers
  import opened Text

  /** A user row as the lookup reads it. */
  datatype Account = Account(id: int, username: string, email: string)

  const UsernameField := "username"
  const EmailField := "email"

  /**
   * The fields the request must carry after `__init__`: only SimpleJWT's
   * password, since the username is made optional and the e-mail is added
   * as optional.
   */
  function MissingRequired(initial: map<string, string>): (r: set<string>)
    ensures UsernameField !in r && EmailField !in r
    ensures r == {} <==> "password" in initial
  {
    if "password" in initial then {} else {"password"}
  }

  /**
   * `filter(email__iexact=email).order_by("id").first()`: the matching
   * account with the smallest id. `iexact` is modelled as ASCII case folding.
   */
  function Lookup(users: seq<Account>, email: string): (r: Option<Account>)
    ensures r.Some? ==> r.value in users && EqualsIgnoreCase(r.value.email, email)
    ensures r.Some? ==> forall u :: u in users && EqualsIgnoreCase(u.email, email) ==> r.value.id <= u.id
    ensures r.None? ==> forall u :: u in users ==> !EqualsIgnoreCase(u.email, email)
  {
    if users == [] then None
    else
      var rest := Lookup(users[1..], email);
      if EqualsIgnoreCase(users[0].email, email) && (rest.None? || users[0].id <= rest.value.id) then Some(users[0])
      else rest
  }

  /** `(self.initial_data.get(key) or "").strip()`. */
  function Given(initial: map<string, string>, key: string): string {
    PyStrip(if key in initial then initial[key] else "")
  }

  /** The attributes handed to the base `validate`. */
  function Resolve(initial: map<string, string>, attrs: map<string, string>, users: seq<Account>): map<string, string> {
    var email := Given(initial, EmailField);
    var username := Given(initial, UsernameField);
    if email != "" && username == "" then
      var user := Lookup(users, email);
      if user.Some? then attrs[UsernameField := user.value.username] else attrs
    else attrs
  }

  /** `validate`: the base check always runs, on the resolved attributes. */
  function Validate<R>(initial: map<string, string>, attrs: map<string, string>, users: seq<Account>,
                       base: map<string, string> -> R): (r: R)
    ensures r == base(attrs) || exists u :: u in users && r == base(attrs[UsernameField := u.username])
    ensures Given(initial, UsernameField) != "" ==> r == base(attrs)
  {
    base(Resolve(initial, attrs, users))
  }

  /** A non-blank username is used as it is: the e-mail is not even looked at. */
  lemma UsernameWins(initial: map<string, string>, attrs: map<string, string>, users: seq<Account>)
    requires Given(initial, UsernameField) != ""
    ensures Resolve(initial, attrs, users) == attrs
  {
  }

  /**
   * With a blank username and an e-mail, the username becomes that of the
   * account with the smallest id among those whose address matches without
   * case; with no such account the attributes are left alone.
   */
  lemma EmailResolves(initial: map<string, string>, attrs: map<string, string>, users: seq<Account>)
    requires Given(initial, UsernameField) == "" && Given(initial, EmailField) != ""
    ensures var r := Resolve(initial, attrs, users);
      var email := Given(initial, EmailField);
      && (r == attrs || exists u :: u in users && r == attrs[UsernameField := u.username])
      && ((forall u :: u in users ==> !EqualsIgnoreCase(u.email, email)) ==> r == attrs)
  {
  }

  /** The account chosen is a match, and no matching account has a smaller id. */
  lemma OldestMatchChosen(initial: map<string, string>, attrs: map<string, string>, users: seq<Account>, u: Account)
    requires Given(initial, UsernameField) == "" && Given(initial, EmailField) != ""
    requires u in users && EqualsIgnoreCase(u.email, Given(initial, EmailField))
    ensures var v := Lookup(users, Given(initial, EmailField)).value;
      && Resolve(initial, attrs, users) == attrs[UsernameField := v.username]
      && EqualsIgnoreCase(v.email, u.email) && v.id <= u.id
  {
  }

  /** Only the username attribute is ever written; every other attribute is passed through. */
  lemma OnlyUsernameWritten(initial: map<string, string>, attrs: map<string, string>, users: seq<Account>)
    ensures var r := Resolve(initial, attrs, users);
      && (forall k :: k != UsernameField ==> (k in r <==> k in attrs))
      && (forall k :: k != UsernameField && k in r ==> r[k] == attrs[k])
  {
  }
}
