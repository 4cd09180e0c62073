/**
 * The project-wide Django REST framework error handler
 * (backend/core/exceptions.py): it takes the response DRF built for an
 * exception and rewrites the `detail` of its body into Russian for missing
 * credentials, missing rights and an invalid SimpleJWT token. DRF's own
 * `exception_handler` is not part of this model: its response (or `null`
 * when it produced none) is the input.
 */
module CoreExceptions {
  import opened Wrappers
  import opened Json

  const AuthRequired := "Требуется аутентификация"
  const NotAllowed := "Недостаточно прав"
  const RefreshInvalid := "Refresh-токен недействителен или просрочен"
  const DefaultDenied := "You do not have permission to perform this action."
  const TokenNotValid := "token_not_valid"

  /** The English details of a 401 that are replaced. */
  const EnglishUnauthenticated: seq<string> :=
    ["Authentication credentials were not provided.", "Given token not valid for any token type", "Invalid token."]

  /** The class of the exception, as far as the handler looks at it. */
  datatype Exc = NotAuthenticated | PermissionDenied | OtherException

  /** The response DRF built: a status code that is never changed, and a body that is. */
  class Response {
    const status: int
    var data: Json

    constructor (status: int, data: Json)
      ensures this.status == status && this.data == data
    {
      this.status := status;
      this.data := data;
    }
  }

  /** `response.data if isinstance(response.data, dict) else {}`. */
  function AsDict(body: Json): map<string, Json> {
    if body.JObj? then body.fields else map[]
  }

  /** `data.get(key)` is a string among `texts`. */
  predicate IsOneOf(data: map<string, Json>, key: string, texts: seq<string>) {
    key in data && data[key].JStr? && data[key].s in texts
  }

  /** `data["detail"] = text`. */
  function SetDetail(data: map<string, Json>, text: string): map<string, Json> {
    data["detail" := JStr(text)]
  }

  /** Step 1: the exception classes DRF names. */
  function ByException(exc: Exc, data: map<string, Json>): map<string, Json> {
    if exc == NotAuthenticated then SetDetail(data, AuthRequired)
    else if exc == PermissionDenied && IsOneOf(data, "detail", [DefaultDenied, NotAllowed]) then SetDetail(data, NotAllowed)
    else data
  }

  /** Step 2: the common English details of a 401 and a 403. */
  function ByStatus(status: int, data: map<string, Json>): map<string, Json> {
    var d := if status == 401 && IsOneOf(data, "detail", EnglishUnauthenticated) then SetDetail(data, AuthRequired) else data;
    if status == 403 && IsOneOf(d, "detail", [DefaultDenied]) then SetDetail(d, NotAllowed) else d
  }

  /** Step 3: an invalid or expired SimpleJWT token. */
  function ByCode(data: map<string, Json>): map<string, Json> {
    if IsOneOf(data, "code", [TokenNotValid]) then SetDetail(data, RefreshInvalid) else data
  }

  /** The body the handler leaves in the response. */
  function Normalized(exc: Exc, status: int, body: Json): map<string, Json> {
    ByCode(ByStatus(status, ByException(exc, AsDict(body))))
  }

  /**
   * `custom_exception_handler`: no response is passed back as it is;
   * otherwise the body becomes the normalised dictionary, the status code
   * stays, and the same response is returned.
   */
  method CustomExceptionHandler(exc: Exc, response: Response?) returns (r: Response?)
    modifies response
    ensures r == response
    ensures response != null ==> response.data == JObj(Normalized(exc, response.status, old(response.data)))
  {
    if response == null {
      return response;
    }
    var data := AsDict(response.data);
    if exc == NotAuthenticated {
      data := data["detail" := JStr(AuthRequired)];
    } else if exc == PermissionDenied {
      if IsOneOf(data, "detail", [DefaultDenied, NotAllowed]) {
        data := data["detail" := JStr(NotAllowed)];
      }
    }
    if response.status == 401 && IsOneOf(data, "detail", EnglishUnauthenticated) {
      data := data["detail" := JStr(AuthRequired)];
    }
    if response.status == 403 && IsOneOf(data, "detail", [DefaultDenied]) {
      data := data["detail" := JStr(NotAllowed)];
    }
    if IsOneOf(data, "code", [TokenNotValid]) {
      data := data["detail" := JStr(RefreshInvalid)];
    }
    response.data := JObj(data);
    return response;
  }

  /** Only `detail` is ever touched: every other key of a dictionary body keeps its value, and none is added. */
  lemma OnlyDetailChanges(exc: Exc, status: int, body: Json)
    ensures var r := Normalized(exc, status, body);
      && (forall k :: k != "detail" ==> (k in r <==> k in AsDict(body)))
      && (forall k :: k != "detail" && k in r ==> r[k] == AsDict(body)[k])
  {
  }

  /** A body that is not a dictionary is replaced by one that holds at most `detail`. */
  lemma NonDictReplaced(exc: Exc, status: int, body: Json)
    requires !body.JObj?
    ensures Normalized(exc, status, body).Keys <= {"detail"}
  {
  }

  /** The token code wins over every other rule, because it is applied last. */
  lemma TokenCodeWins(exc: Exc, status: int, body: Json)
    requires IsOneOf(AsDict(body), "code", [TokenNotValid])
    ensures Normalized(exc, status, body)["detail"] == JStr(RefreshInvalid)
  {
    assert IsOneOf(ByStatus(status, ByException(exc, AsDict(body))), "code", [TokenNotValid]);
  }

  /** Missing credentials read "authentication required" (unless the token code overrides it). */
  lemma NotAuthenticatedMessage(status: int, body: Json)
    requires !IsOneOf(AsDict(body), "code", [TokenNotValid])
    ensures Normalized(NotAuthenticated, status, body)["detail"] == JStr(AuthRequired)
  {
    var d1 := ByException(NotAuthenticated, AsDict(body));
    assert !IsOneOf(ByStatus(status, d1), "code", [TokenNotValid]);
  }

  /** A refusal with DRF's default or the Russian detail reads "not enough rights". */
  lemma PermissionDeniedDefault(status: int, body: Json)
    requires IsOneOf(AsDict(body), "detail", [DefaultDenied, NotAllowed])
    requires !IsOneOf(AsDict(body), "code", [TokenNotValid])
    ensures Normalized(PermissionDenied, status, body)["detail"] == JStr(NotAllowed)
  {
    var d1 := ByException(PermissionDenied, AsDict(body));
    assert !IsOneOf(ByStatus(status, d1), "code", [TokenNotValid]);
  }

  /**
   * A refusal whose permission class set its own detail keeps it, as long as
   * no later rule applies (a 401 with one of the English details, or the
   * token code).
   */
  lemma PermissionDeniedKeepsCustom(status: int, body: Json)
    requires body.JObj? && "detail" in body.fields && body.fields["detail"].JStr?
    requires body.fields["detail"].s !in [DefaultDenied, NotAllowed]
    requires !(status == 401 && body.fields["detail"].s in EnglishUnauthenticated)
    requires !IsOneOf(AsDict(body), "code", [TokenNotValid])
    ensures Normalized(PermissionDenied, status, body) == body.fields
  {
  }

  /** The English details of a 401 become "authentication required" whatever the exception. */
  lemma EnglishUnauthenticatedRewritten(exc: Exc, body: Json)
    requires IsOneOf(AsDict(body), "detail", EnglishUnauthenticated)
    requires !IsOneOf(AsDict(body), "code", [TokenNotValid])
    ensures Normalized(exc, 401, body)["detail"] == JStr(AuthRequired)
  {
    var d1 := ByException(exc, AsDict(body));
    assert !IsOneOf(ByStatus(401, d1), "code", [TokenNotValid]);
  }

  /** DRF's default English refusal on a 403 becomes "not enough rights" whatever the exception, unless credentials were missing. */
  lemma DefaultDeniedRewritten(exc: Exc, body: Json)
    requires exc != NotAuthenticated
    requires IsOneOf(AsDict(body), "detail", [DefaultDenied])
    requires !IsOneOf(AsDict(body), "code", [TokenNotValid])
    ensures Normalized(exc, 403, body)["detail"] == JStr(NotAllowed)
  {
    var d1 := ByException(exc, AsDict(body));
    assert !IsOneOf(ByStatus(403, d1), "code", [TokenNotValid]);
  }

  /** The detail is left as it was or becomes one of the three Russian messages. */
  lemma DetailIsKeptOrRussian(exc: Exc, status: int, body: Json)
    ensures var r := Normalized(exc, status, body);
      "detail" in r ==>
        (("detail" in AsDict(body) && r["detail"] == AsDict(body)["detail"])
         || r["detail"] in {JStr(AuthRequired), JStr(NotAllowed), JStr(RefreshInvalid)})
  {
  }

  /** Handling a handled body again changes nothing. */
  lemma NormalizedIdempotent(exc: Exc, status: int, body: Json)
    ensures Normalized(exc, status, JObj(Normalized(exc, status, body))) == Normalized(exc, status, body)
  {
    var r := Normalized(exc, status, body);
    if IsOneOf(r, "code", [TokenNotValid]) {
      TokenCodeWins(exc, status, JObj(r));
    } else if "detail" in r && r["detail"].JStr? {
      assert r["detail"].s !in EnglishUnauthenticated && r["detail"].s != DefaultDenied ==>
        Normalized(exc, status, JObj(r)) == r;
    }
  }
}
