/** `AccountRegisterDto.create`: the registration request, checked field by field. */
module AccountRegisterDtos {
  import opened Outcomes
  import opened LooseObjects
  import opened Guards
  import opened Config

  datatype RegisterDto = RegisterDto(
    name: string,
    lastname: string,
    email: string,
    password: string,
    created_at: string)

  const MissingName := "Missing name"
  const MissingLastname := "Missing lastname"
  const MissingEmail := "Missing email"
  const MissingPassword := "Missing password"
  const InvalidEmail := "El correo no es válido"
  const WeakPassword := "La contraseña debe contener por lo menos un número, una mayúscula, una minúscula y un carácter especial"

  /** The guards of `create`, in the order it runs them. */
  function Checks(body: Body, patterns: Patterns): seq<Check>
  {
    [ Check(Present(body, "name"), MissingName),
      Check(Present(body, "lastname"), MissingLastname),
      Check(Present(body, "email"), MissingEmail),
      Check(Present(body, "password"), MissingPassword),
      Check(patterns.email(Field(body, "email")), InvalidEmail),
      Check(patterns.password(Field(body, "password")), WeakPassword) ]
  }

  /** `create(object)`, with `now` the ISO text of the clock at the call. The
      result is the pair `[error, dto]`: the message of the first failing guard,
      or the DTO with the fields copied from the body. */
  function Create(body: Body, patterns: Patterns, now: string): (r: (Option<string>, Option<RegisterDto>))
    ensures r.0.Some? != r.1.Some?
    ensures r.0 == FirstFailure(Checks(body, patterns))
    ensures r.1.Some? ==>
      && r.1.value.name == Field(body, "name") && r.1.value.lastname == Field(body, "lastname")
      && r.1.value.email == Field(body, "email") && r.1.value.password == Field(body, "password")
      && r.1.value.created_at == now
  {
    var checks := Checks(body, patterns);
    if !Present(body, "name") then
      assert FailsFirstAt(checks, 0);
      (Some(MissingName), None)
    else if !Present(body, "lastname") then
      assert FailsFirstAt(checks, 1);
      (Some(MissingLastname), None)
    else if !Present(body, "email") then
      assert FailsFirstAt(checks, 2);
      (Some(MissingEmail), None)
    else if !Present(body, "password") then
      assert FailsFirstAt(checks, 3);
      (Some(MissingPassword), None)
    else if !patterns.email(body["email"]) then
      assert FailsFirstAt(checks, 4);
      (Some(InvalidEmail), None)
    else if !patterns.password(body["password"]) then
      assert FailsFirstAt(checks, 5);
      (Some(WeakPassword), None)
    else
      (None, Some(RegisterDto(body["name"], body["lastname"], body["email"], body["password"], now)))
  }

  /** The `role` field is destructured but never consulted. */
  lemma RoleIgnored(body: Body, role: string, patterns: Patterns, now: string)
    ensures Create(body["role" := role], patterns, now) == Create(body, patterns, now)
  {
  }

  /** A present but malformed e-mail is reported as such whatever the password is. */
  lemma MalformedEmailReportedFirst(body: Body, patterns: Patterns, now: string)
    requires Present(body, "name") && Present(body, "lastname")
    requires Present(body, "email") && Present(body, "password")
    requires !patterns.email(body["email"])
    ensures Create(body, patterns, now) == (Some(InvalidEmail), None)
  {
  }

  /** Registration succeeds exactly when all four fields are present and both
      formats are accepted. */
  lemma AcceptedExactly(body: Body, patterns: Patterns, now: string)
    ensures Create(body, patterns, now).1.Some? <==>
      && Present(body, "name") && Present(body, "lastname")
      && Present(body, "email") && Present(body, "password")
      && patterns.email(body["email"]) && patterns.password(body["password"])
  {
  }
}
