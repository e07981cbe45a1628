/** `PrismaAccountRepository`: the `user` table, held in memory and keyed by
    e-mail (the column the schema declares unique). `updatePassword` follows the
    abstract `AccountRepository` signature. */
module AccountRepository {
  import opened Outcomes
  import opened LooseObjects
  import opened AccountRegisterDtos

  /** A row of the `user` table. */
  datatype User = User(
    id: int,
    name: string,
    lastname: string,
    email: string,
    password: string,
    email_validated: bool,
    created_at: string)

  /** `Partial<User>` as `updateEmailValidate` receives it: the fields to overwrite. */
  datatype UserPatch = UserPatch(
    name: Option<string>,
    lastname: Option<string>,
    password: Option<string>,
    email_validated: Option<bool>)

  /** The error the table raises when an insert repeats an e-mail. */
  const UniqueEmailViolated := "Unique constraint failed on the fields: (`email`)"

  /** The row `create` inserts for a DTO: the DTO's fields, the next id, and
      `email_validated` at its column default, false. */
  function Inserted(dto: RegisterDto, id: int): User
  {
    User(id, dto.name, dto.lastname, dto.email, dto.password, false, dto.created_at)
  }

  /** A row after a patch: the fields the patch names take the patch's value,
      every other field keeps its own. */
  function Patched(u: User, patch: UserPatch): (v: User)
    ensures v.id == u.id && v.email == u.email && v.created_at == u.created_at
    ensures v.name == (if patch.name.Some? then patch.name.value else u.name)
    ensures v.lastname == (if patch.lastname.Some? then patch.lastname.value else u.lastname)
    ensures v.password == (if patch.password.Some? then patch.password.value else u.password)
    ensures v.email_validated == (if patch.email_validated.Some? then patch.email_validated.value else u.email_validated)
  {
    var v := if patch.name.Some? then u.(name := patch.name.value) else u;
    var v := if patch.lastname.Some? then v.(lastname := patch.lastname.value) else v;
    var v := if patch.password.Some? then v.(password := patch.password.value) else v;
    if patch.email_validated.Some? then v.(email_validated := patch.email_validated.value) else v
  }

  /** The row as the JavaScript object Prisma hands back. */
  function AsObject(u: User): map<string, JsValue>
  {
    map["id" := Num(u.id), "name" := Str(u.name), "lastname" := Str(u.lastname),
        "email" := Str(u.email), "password" := Str(u.password),
        "email_validated" := Bool(u.email_validated), "created_at" := Date(u.created_at)]
  }

  class AccountStore {
    var users: map<string, User>
    /** The next value of the auto-increment id. */
    var nextId: int

    /** Each row is stored under its own e-mail, ids are below the counter and
        no two rows share an id. */
    ghost predicate Valid()
      reads this
    {
      && nextId >= 1
      && (forall e :: e in users ==> users[e].email == e && 1 <= users[e].id < nextId)
      && (forall e, f :: e in users && f in users && users[e].id == users[f].id ==> e == f)
    }

    constructor ()
      ensures Valid() && users == map[] && nextId == 1
    {
      users := map[];
      nextId := 1;
    }

    /** `findByEmail(email)`: the one row with that e-mail, or null. */
    method FindByEmail(email: string) returns (u: Option<User>)
      requires Valid()
      ensures u.Some? <==> email in users
      ensures u.Some? ==> u.value in users.Values && u.value.email == email
      ensures u.Some? ==> forall v :: v in users.Values && v.email == email ==> v == u.value
      ensures u.None? ==> forall v :: v in users.Values ==> v.email != email
    {
      if email in users {
        u := Some(users[email]);
      } else {
        u := None;
      }
    }

    /** `create(dto)`: insert a row with the DTO's fields; an e-mail already in
        the table violates the unique constraint and nothing is inserted. */
    method Create(dto: RegisterDto) returns (r: Result<User>)
      requires Valid()
      modifies this
      ensures Valid()
      ensures dto.email in old(users) ==>
        r == Err(Plain(UniqueEmailViolated)) && users == old(users) && nextId == old(nextId)
      ensures dto.email !in old(users) ==>
        && r == Ok(Inserted(dto, old(nextId)))
        && users == old(users)[dto.email := r.value]
        && nextId == old(nextId) + 1
    {
      if dto.email in users {
        return Err(Plain(UniqueEmailViolated));
      }
      var u := Inserted(dto, nextId);
      users := users[dto.email := u];
      nextId := nextId + 1;
      r := Ok(u);
    }

    /** `updateEmailValidate(email, updateData)`: overwrite the fields named in
        the patch and return the updated row; a missing e-mail makes the update
        throw, which is caught and reported as null. */
    method UpdateEmailValidate(email: string, patch: UserPatch) returns (r: Option<User>)
      requires Valid()
      modifies this
      ensures Valid() && nextId == old(nextId)
      ensures email in old(users) ==>
        r == Some(Patched(old(users)[email], patch)) && users == old(users)[email := r.value]
      ensures email !in old(users) ==> r == None && users == old(users)
    {
      if email !in users {
        return None;
      }
      var u := Patched(users[email], patch);
      users := users[email := u];
      r := Some(u);
    }

    /** `updatePassword(userId, newPassword)`: store the new password on the row
        with that id; every other row and field stays as it was. */
    method UpdatePassword(userId: int, newPassword: string)
      requires Valid()
      modifies this
      ensures Valid() && nextId == old(nextId)
      ensures users.Keys == old(users).Keys
      ensures forall e :: e in users ==>
        users[e] == if old(users)[e].id == userId then old(users)[e].(password := newPassword) else old(users)[e]
    {
      users := map e | e in users :: if users[e].id == userId then users[e].(password := newPassword) else users[e];
    }
  }

  /** Since ids are unique, updating the password by id touches exactly the row
      stored under the e-mail that has that id. */
  lemma UpdateByIdIsUpdateAtKey(before: map<string, User>, after: map<string, User>, email: string, newPassword: string)
    requires email in before
    requires forall e, f :: e in before && f in before && before[e].id == before[f].id ==> e == f
    requires after.Keys == before.Keys
    requires forall e :: e in after ==>
      after[e] == if before[e].id == before[email].id then before[e].(password := newPassword) else before[e]
    ensures after == before[email := before[email].(password := newPassword)]
  {
  }
}
