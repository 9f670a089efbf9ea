/**
 * The `User` table as the authentication routes and the clean-up script see it through
 * Prisma: rows with a unique id and a unique email, `create` appending a row under the next
 * id and `deleteMany` removing every row whose id is in a set. The database schema is not
 * part of this model; ids are taken to be auto-incremented numbers and the creation time a
 * parameter.
 */
module UserStore {
  import opened Wrappers

  datatype User = User(id: nat, name: string, email: string, password: string, createdAt: int)

  predicate HasEmail(rows: seq<User>, email: string) {
    exists i | 0 <= i < |rows| :: rows[i].email == email
  }

  /** `findUnique({ where: { email } })`. */
  function FindByEmail(rows: seq<User>, email: string): (r: Option<User>)
    ensures r.Some? ==> r.value in rows && r.value.email == email
    ensures r.None? <==> !HasEmail(rows, email)
    decreases |rows|
  {
    if rows == [] then None
    else if rows[0].email == email then Some(rows[0])
    else
      var r := FindByEmail(rows[1..], email);
      assert HasEmail(rows, email) ==> HasEmail(rows[1..], email) by {
        if HasEmail(rows, email) {
          var i :| 0 <= i < |rows| && rows[i].email == email;
          assert rows[1..][i - 1].email == email;
        }
      }
      r
  }

  /** The rows whose id is not in `ids`, in their order: what `deleteMany({ where: { id: { in: ids } } })` leaves. */
  function Without(rows: seq<User>, ids: set<nat>): (r: seq<User>)
    ensures |r| <= |rows|
    ensures forall u | u in r :: u in rows && u.id !in ids
    ensures forall u | u in rows && u.id !in ids :: u in r
    decreases |rows|
  {
    if rows == [] then []
    else (if rows[0].id in ids then [] else [rows[0]]) + Without(rows[1..], ids)
  }

  /** Deleting ids no row has leaves the rows as they were. */
  lemma {:induction false} WithoutNothing(rows: seq<User>, ids: set<nat>)
    requires forall i | 0 <= i < |rows| :: rows[i].id !in ids
    ensures Without(rows, ids) == rows
    decreases |rows|
  {
    if rows != [] {
      WithoutNothing(rows[1..], ids);
    }
  }

  predicate UniqueIds(rows: seq<User>) {
    forall i, j | 0 <= i < j < |rows| :: rows[i].id != rows[j].id
  }

  predicate UniqueEmails(rows: seq<User>) {
    forall i, j | 0 <= i < j < |rows| :: rows[i].email != rows[j].email
  }

  /** Putting a row in front of unique rows that share neither its id nor its email keeps them unique. */
  lemma ConsUnique(u: User, rest: seq<User>)
    requires UniqueIds(rest) && UniqueEmails(rest)
    requires forall w | w in rest :: w.id != u.id && w.email != u.email
    ensures UniqueIds([u] + rest) && UniqueEmails([u] + rest)
  {
    var s := [u] + rest;
    forall i, j | 0 <= i < j < |s|
      ensures s[i].id != s[j].id && s[i].email != s[j].email
    {
      assert s[j] == rest[j - 1];
      if i > 0 {
        assert s[i] == rest[i - 1];
      }
    }
  }

  /** Removing rows keeps ids and emails unique. */
  lemma {:induction false} WithoutKeepsUnique(rows: seq<User>, ids: set<nat>)
    requires UniqueIds(rows) && UniqueEmails(rows)
    ensures UniqueIds(Without(rows, ids)) && UniqueEmails(Without(rows, ids))
    decreases |rows|
  {
    if rows != [] {
      var tail := rows[1..];
      assert UniqueIds(tail) && UniqueEmails(tail) by {
        forall i, j | 0 <= i < j < |tail|
          ensures tail[i].id != tail[j].id && tail[i].email != tail[j].email
        {
          assert tail[i] == rows[i + 1] && tail[j] == rows[j + 1];
        }
      }
      WithoutKeepsUnique(tail, ids);
      var rest := Without(tail, ids);
      if rows[0].id !in ids {
        forall w | w in rest
          ensures w.id != rows[0].id && w.email != rows[0].email
        {
          var k :| 0 <= k < |tail| && tail[k] == w;
          assert rows[k + 1] == w;
        }
        ConsUnique(rows[0], rest);
      } else {
        assert Without(rows, ids) == rest;
      }
    }
  }

  class UserTable {
    var rows: seq<User>
    /** The id the next created user gets. */
    var nextId: nat

    ghost predicate Valid()
      reads this
    {
      && UniqueIds(rows) && UniqueEmails(rows)
      && (forall i | 0 <= i < |rows| :: rows[i].id < nextId)
    }

    constructor(initial: seq<User>, next: nat)
      requires UniqueIds(initial) && UniqueEmails(initial)
      requires forall i | 0 <= i < |initial| :: initial[i].id < next
      ensures Valid() && rows == initial && nextId == next
    {
      rows, nextId := initial, next;
    }

    /**
     * `user.create({ data: { name, email, password } })`: the new row gets the next id; the
     * unique index on `email` refuses a second row with the same email.
     */
    method Create(name: string, email: string, password: string, createdAt: int) returns (r: Option<User>)
      requires Valid()
      modifies this
      ensures Valid()
      ensures HasEmail(old(rows), email) ==> r.None? && rows == old(rows) && nextId == old(nextId)
      ensures !HasEmail(old(rows), email) ==> (
        && r == Some(User(old(nextId), name, email, password, createdAt))
        && rows == old(rows) + [r.value] && nextId == old(nextId) + 1)
    {
      if FindByEmail(rows, email).Some? {
        return None;
      }
      var u := User(nextId, name, email, password, createdAt);
      rows := rows + [u];
      nextId := nextId + 1;
      r := Some(u);
    }

    /** `user.deleteMany({ where: { id: { in: ids } } })`, answering with the number of rows removed. */
    method DeleteMany(ids: set<nat>) returns (count: nat)
      requires Valid()
      modifies this`rows
      ensures Valid()
      ensures rows == Without(old(rows), ids) && count == |old(rows)| - |rows|
    {
      WithoutKeepsUnique(rows, ids);
      var kept := Without(rows, ids);
      count := |rows| - |kept|;
      rows := kept;
    }
  }
}
