/** `AccountEntity.fromObject`: an account built from a loose object such as a
    database row, after checking the four fields it requires. */
module AccountEntities {
  import opened Outcomes
  import opened LooseObjects
  import opened Guards

  /** The entity. Its fields hold whatever the object held: `id` is declared as a
      string but a database row carries a number there. */
  datatype Account = Account(
    id: JsValue,
    name: JsValue,
    lastname: JsValue,
    email: JsValue,
    password: JsValue,
    email_validated: JsValue,
    createdAt: JsValue)

  /** `const { password, ...rest } = entity`: the entity without its password. */
  datatype PublicAccount = PublicAccount(
    id: JsValue,
    name: JsValue,
    lastname: JsValue,
    email: JsValue,
    email_validated: JsValue,
    createdAt: JsValue)

  function WithoutPassword(a: Account): PublicAccount
  {
    PublicAccount(a.id, a.name, a.lastname, a.email, a.email_validated, a.createdAt)
  }

  const MissingId := "Missing id"
  const MissingEmail := "Missing email"
  const MissingPassword := "Missing password"
  const MissingCreatedAt := "Missing createdAt"

  /** The required fields, in the order `fromObject` checks them. */
  function Checks(obj: map<string, JsValue>): seq<Check>
  {
    [ Check(Truthy(Get(obj, "id")), MissingId),
      Check(Truthy(Get(obj, "email")), MissingEmail),
      Check(Truthy(Get(obj, "password")), MissingPassword),
      Check(Truthy(Get(obj, "created_at")), MissingCreatedAt) ]
  }

  /** `fromObject(object)`: a bad-request error naming the first required field
      that is falsy, or the entity with every field copied and `created_at`
      stored as `createdAt`. */
  function FromObject(obj: map<string, JsValue>): (r: Result<Account>)
    ensures r.Err? <==> FirstFailure(Checks(obj)).Some?
    ensures r.Err? ==> r.failure == BadRequest(FirstFailure(Checks(obj)).value)
    ensures r.Ok? ==>
      && r.value.id == Get(obj, "id") && r.value.name == Get(obj, "name")
      && r.value.lastname == Get(obj, "lastname") && r.value.email == Get(obj, "email")
      && r.value.password == Get(obj, "password")
      && r.value.email_validated == Get(obj, "email_validated")
      && r.value.createdAt == Get(obj, "created_at")
  {
    var checks := Checks(obj);
    var id, name, lastname, email := Get(obj, "id"), Get(obj, "name"), Get(obj, "lastname"), Get(obj, "email");
    var password, emailValidated, createdAt := Get(obj, "password"), Get(obj, "email_validated"), Get(obj, "created_at");
    if !Truthy(id) then
      assert FailsFirstAt(checks, 0);
      Err(BadRequest(MissingId))
    else if !Truthy(email) then
      assert FailsFirstAt(checks, 1);
      Err(BadRequest(MissingEmail))
    else if !Truthy(password) then
      assert FailsFirstAt(checks, 2);
      Err(BadRequest(MissingPassword))
    else if !Truthy(createdAt) then
      assert FailsFirstAt(checks, 3);
      Err(BadRequest(MissingCreatedAt))
    else
      Ok(Account(id, name, lastname, email, password, emailValidated, createdAt))
  }

  /** `name`, `lastname` and `email_validated` are not required: removing them
      never turns a success into an error or changes the error. */
  lemma OptionalFieldsNotRequired(obj: map<string, JsValue>)
    ensures var stripped := obj - {"name", "lastname", "email_validated"};
      && FromObject(stripped).Ok? == FromObject(obj).Ok?
      && (FromObject(obj).Err? ==> FromObject(stripped) == FromObject(obj))
  {
    assert Checks(obj - {"name", "lastname", "email_validated"}) == Checks(obj);
  }

  /** Presence is truthiness: an empty string, `0`, `false` or `null` in a
      required field is rejected like a missing one. */
  lemma FalsyRequiredFieldRejected(obj: map<string, JsValue>, key: string)
    requires key in {"id", "email", "password", "created_at"}
    requires key in obj && !Truthy(obj[key])
    ensures FromObject(obj).Err? && FromObject(obj).failure.BadRequest?
  {
  }
}
