/** `POST /api/admin/auth`: the admin password check. The configured
    password is the `ADMIN_PASSWORD` environment variable, passed in as
    `None` when it is unset. */
module AdminAuth {
  import opened Js
  import opened Wrappers

  /** The status and message the route answers with. */
  datatype Answer = Answer(status: int, message: string)

  const PasswordRequired: string := "Senha é obrigatória"
  const BadConfiguration: string := "Configuração do servidor inválida"
  const WrongPassword: string := "Senha incorreta"
  const Authenticated: string := "Autenticação realizada com sucesso"
  const Unexpected: string := "Erro ao processar autenticação"

  /** The ordered checks: the body, the password sent, the configuration,
      then strict equality. */
  function Authenticate(body: Value, adminPassword: Option<string>): (r: Answer)
    ensures r.status in {200, 400, 401, 500}
    ensures r.status == 200 <==>
              !body.Null? && !body.Undefined? &&
              adminPassword.Some? && adminPassword.value != [] &&
              Field(body, "password") == Str(adminPassword.value)
  {
    if body.Null? || body.Undefined? then Answer(500, Unexpected)
    else
      var password := Field(body, "password");
      if !Truthy(password) then Answer(400, PasswordRequired)
      else if adminPassword.None? || adminPassword.value == [] then Answer(500, BadConfiguration)
      else if password != Str(adminPassword.value) then Answer(401, WrongPassword)
      else Answer(200, Authenticated)
  }

  /** A missing or empty password is answered with 400 before the
      configuration is read: the answer is the same whatever it is. */
  lemma MissingPasswordFirst(body: Value, a: Option<string>, b: Option<string>)
    requires !body.Null? && !body.Undefined? && !Truthy(Field(body, "password"))
    ensures Authenticate(body, a) == Answer(400, PasswordRequired)
    ensures Authenticate(body, a) == Authenticate(body, b)
  {
  }

  /** An unset or empty configured password is answered with 500 for every
      password sent. */
  lemma UnconfiguredIsServerError(body: Value, adminPassword: Option<string>)
    requires !body.Null? && !body.Undefined? && Truthy(Field(body, "password"))
    requires adminPassword.None? || adminPassword.value == []
    ensures Authenticate(body, adminPassword) == Answer(500, BadConfiguration)
  {
  }

  /** With a configured password, any truthy password that is not exactly
      that string is refused with 401. */
  lemma DifferentPasswordRejected(body: Value, secret: string)
    requires !body.Null? && !body.Undefined? && Truthy(Field(body, "password"))
    requires secret != [] && Field(body, "password") != Str(secret)
    ensures Authenticate(body, Some(secret)) == Answer(401, WrongPassword)
  {
  }

  /** The comparison is exact: a password differing only in case, or a
      number equal to a numeric password, is refused with 401. */
  lemma ComparisonIsStrict()
    ensures Authenticate(Obj(map["password" := Str("Admin")]), Some("admin")) == Answer(401, WrongPassword)
    ensures Authenticate(Obj(map["password" := Num(1234.0)]), Some("1234")) == Answer(401, WrongPassword)
  {
  }
}
