/** `AccountLoginDto.create`: the login request, checked for presence only. */
module AccountLoginDtos {
  import opened Outcomes
  import opened LooseObjects
  import opened Guards

  datatype LoginDto = LoginDto(email: string, password: string)

  const MissingEmail := "Missing email"
  const MissingPassword := "Missing password"

  /** The guards of `create`, in the order it runs them. */
  function Checks(body: Body): seq<Check>
  {
    [ Check(Present(body, "email"), MissingEmail),
      Check(Present(body, "password"), MissingPassword) ]
  }

  /** `create(object)`: the pair `[error, dto]`. */
  function Create(body: Body): (r: (Option<string>, Option<LoginDto>))
    ensures r.0.Some? != r.1.Some?
    ensures r.0 == FirstFailure(Checks(body))
    ensures r.1.Some? ==> r.1.value.email == Field(body, "email") && r.1.value.password == Field(body, "password")
  {
    if !Present(body, "email") then
      assert FailsFirstAt(Checks(body), 0);
      (Some(MissingEmail), None)
    else if !Present(body, "password") then
      assert FailsFirstAt(Checks(body), 1);
      (Some(MissingPassword), None)
    else
      (None, Some(LoginDto(body["email"], body["password"])))
  }

  /** A missing or empty e-mail is reported whatever the password is. */
  lemma MissingEmailReportedFirst(body: Body)
    requires !Present(body, "email")
    ensures Create(body) == (Some(MissingEmail), None)
  {
  }

  /** No format or strength check: any non-empty e-mail and password are accepted,
      and nothing else in the body matters. */
  lemma AnyNonEmptyAccepted(email: string, password: string, rest: Body)
    requires email != "" && password != ""
    ensures Create(rest["email" := email]["password" := password]) == (None, Some(LoginDto(email, password)))
  {
  }
}
