/** The user schemas of the HTTP API (app/schemas/user.py). */
module UserSchemas {
  import opened Wrappers
  import opened Validation

  /** Body of `POST /register`: both fields required. */
  datatype UserCreate = UserCreate(username: string, password: string)

  /** Body of `POST /login`: the same fields as `UserCreate`, which it
      subclasses without adding anything. */
  type UserLogin = UserCreate

  /** The user as the API returns it: no password and no hash. */
  datatype UserResponse = UserResponse(id: int, username: string)

  /** Validation of a `UserCreate` (and so of a `UserLogin`) body. */
  function ParseUserCreate(body: Body): (r: Result<UserCreate, Invalid>)
    ensures r.Success? <==>
      && "username" in body && StrField(body["username"]).Some?
      && "password" in body && StrField(body["password"]).Some?
    ensures r.Success? ==>
      StrField(body["username"]) == Some(r.value.username) && StrField(body["password"]) == Some(r.value.password)
    ensures r.Failure? ==>
      && |r.error.fields| > 0
      && ("username" in r.error.fields <==> !("username" in body && StrField(body["username"]).Some?))
      && ("password" in r.error.fields <==> !("password" in body && StrField(body["password"]).Some?))
  {
    var username := RequiredStr(body, "username");
    var password := RequiredStr(body, "password");
    if username.Some? && password.Some? then Success(UserCreate(username.value, password.value))
    else Failure(Invalid(FailedField("username", username) + FailedField("password", password)))
  }

  /** A body with a username and no password is refused, and the error names
      the password field (FastAPI then answers 422). */
  lemma MissingPasswordRejected(username: string)
    ensures ParseUserCreate(map["username" := JStr(username)]) == Failure(Invalid(["password"]))
  {
    var body := map["username" := JStr(username)];
    assert "password" !in body;
    assert RequiredStr(body, "username") == Some(username);
    assert RequiredStr(body, "password") == None;
    assert FailedField("username", RequiredStr(body, "username")) + FailedField("password", RequiredStr(body, "password")) == ["password"];
  }

  /** Fields the schema does not declare, such as a chat id, are ignored. */
  lemma ExtraFieldIgnored(body: Body, key: string, value: Json)
    requires key != "username" && key != "password"
    ensures ParseUserCreate(body[key := value]) == ParseUserCreate(body)
  {
  }
}
