/** `PrismaPasswordResetRepository`: the `passwordResetCode` table, held in
    memory as its rows in insertion order. Times are milliseconds since the
    epoch; `now` is the clock at the call. */
module PasswordResetRepository {
  import opened Outcomes

  /** A row of the table. `used` starts false and nothing in this code sets it. */
  datatype ResetCode = ResetCode(
    id: int,
    code: string,
    userId: int,
    expires_at: int,
    used: bool)

  const SaveFailed := "No se pudo guardar el código de verificación"

  /** The `where` filter of `getCode`: the user's row, not expired, not used. */
  predicate Qualifies(c: ResetCode, userId: int, now: int)
  {
    c.userId == userId && c.expires_at > now && !c.used
  }

  /** `findFirst` with that filter and `orderBy: { expires_at: 'desc' }`: a
      qualifying row with the latest expiry, or null when no row qualifies.
      Among rows that tie on expiry, the earliest inserted is taken. */
  function LatestValid(rows: seq<ResetCode>, userId: int, now: int): (r: Option<ResetCode>)
    ensures r.Some? ==> r.value in rows && Qualifies(r.value, userId, now)
    ensures r.Some? ==> forall c :: c in rows && Qualifies(c, userId, now) ==> c.expires_at <= r.value.expires_at
    ensures r.None? <==> forall c :: c in rows ==> !Qualifies(c, userId, now)
  {
    if rows == [] then None
    else
      var rest := LatestValid(rows[1..], userId, now);
      assert forall c :: c in rows ==> c == rows[0] || c in rows[1..];
      if !Qualifies(rows[0], userId, now) then rest
      else if rest.Some? && rest.value.expires_at > rows[0].expires_at then rest
      else Some(rows[0])
  }

  /** Rows of other users, expired rows and used rows do not affect the
      selection: appending one leaves the answer as it was. */
  lemma {:induction false} NonQualifyingRowIgnored(rows: seq<ResetCode>, c: ResetCode, userId: int, now: int)
    requires !Qualifies(c, userId, now)
    ensures LatestValid(rows + [c], userId, now) == LatestValid(rows, userId, now)
  {
    if rows != [] {
      assert (rows + [c])[1..] == rows[1..] + [c];
      NonQualifyingRowIgnored(rows[1..], c, userId, now);
    }
  }

  /** A freshly appended qualifying row is selected unless an older row expires
      strictly later or at the same time; the selected expiry is the larger of
      the two. */
  lemma {:induction false} AppendedRowCompetes(rows: seq<ResetCode>, c: ResetCode, userId: int, now: int)
    requires Qualifies(c, userId, now)
    ensures var before := LatestValid(rows, userId, now);
      var after := LatestValid(rows + [c], userId, now);
      && after.Some?
      && (before.None? ==> after == Some(c))
      && (before.Some? && before.value.expires_at < c.expires_at ==> after == Some(c))
      && (before.Some? && before.value.expires_at >= c.expires_at ==> after == before)
  {
    if rows != [] {
      assert (rows + [c])[1..] == rows[1..] + [c];
      AppendedRowCompetes(rows[1..], c, userId, now);
    }
  }

  class ResetCodeStore {
    var rows: seq<ResetCode>
    /** The next value of the auto-increment id. */
    var nextId: int

    constructor ()
      ensures rows == [] && nextId == 1
    {
      rows := [];
      nextId := 1;
    }

    /** `getCode(id)`: reads the table and changes nothing. */
    method GetCode(id: int, now: int) returns (r: Option<ResetCode>)
      ensures r == LatestValid(rows, id, now)
    {
      r := LatestValid(rows, id, now);
    }

    /** `saveVerificationCode(code, userId, expires_at)`: append one unused row.
        `accepted` says whether the database took the insert; when it did not,
        the repository throws its fixed message and the table is unchanged. */
    method SaveVerificationCode(code: string, userId: int, expires_at: int, accepted: bool) returns (r: Result<()>)
      modifies this
      ensures accepted ==>
        && r == Ok(())
        && rows == old(rows) + [ResetCode(old(nextId), code, userId, expires_at, false)]
        && nextId == old(nextId) + 1
      ensures !accepted ==> r == Err(Plain(SaveFailed)) && rows == old(rows) && nextId == old(nextId)
    {
      if !accepted {
        return Err(Plain(SaveFailed));
      }
      rows := rows + [ResetCode(nextId, code, userId, expires_at, false)];
      nextId := nextId + 1;
      r := Ok(());
    }
  }
}
