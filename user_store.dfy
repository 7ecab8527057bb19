/**
 * The `users` table as the student profile routes read and write it:
 * `select ... where id = $1 limit 1`, `select ... where email = $1 limit 1`
 * and `update users set ... where id = $1`.
 */
module UserStore {
  import opened Common

  datatype UserRow = UserRow(id: string, email: string, prefix: string, firstName: string, lastName: string,
                             phone: Option<string>, address: Option<string>, passwordHash: string, updatedAt: int)

  /** The first row with the id, as `limit(1)` returns it. */
  function FindById(rows: seq<UserRow>, id: string): (r: Option<UserRow>)
    ensures r.None? <==> forall k :: 0 <= k < |rows| ==> rows[k].id != id
    ensures r.Some? ==> r.value.id == id
    ensures r.Some? ==> exists k :: (0 <= k < |rows| && rows[k] == r.value
      && forall j :: 0 <= j < k ==> rows[j].id != id)
    decreases |rows|
  {
    if |rows| == 0 then None
    else if rows[0].id == id then Some(rows[0])
    else
      var r := FindById(rows[1..], id);
      assert r.Some? ==> exists k :: (1 <= k < |rows| && rows[k] == r.value && forall j :: 0 <= j < k ==> rows[j].id != id) by {
        if r.Some? {
          var k :| 0 <= k < |rows[1..]| && rows[1..][k] == r.value
            && forall j :: 0 <= j < k ==> rows[1..][j].id != id;
          assert rows[k + 1] == r.value;
          assert forall j :: 0 <= j < k + 1 ==> rows[j].id != id by {
            forall j | 0 <= j < k + 1 ensures rows[j].id != id {
              if j > 0 { assert rows[j] == rows[1..][j - 1]; }
            }
          }
        }
      }
      r
  }

  /** The first row with the email, as `limit(1)` returns it. */
  function FindByEmail(rows: seq<UserRow>, email: string): (r: Option<UserRow>)
    ensures r.None? <==> forall k :: 0 <= k < |rows| ==> rows[k].email != email
    ensures r.Some? ==> r.value in rows && r.value.email == email
    decreases |rows|
  {
    if |rows| == 0 then None
    else if rows[0].email == email then Some(rows[0])
    else FindByEmail(rows[1..], email)
  }

  /** The table the routes share. */
  class UserTable {
    var rows: seq<UserRow>

    constructor(rows: seq<UserRow>)
      ensures this.rows == rows
    {
      this.rows := rows;
    }
  }
}
