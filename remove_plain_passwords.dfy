/**
 * The one-off clean-up script `prisma/scripts/remove-plain-passwords.ts`: deletes every user
 * whose stored password is not a bcrypt hash and reports what it did. Connecting to and
 * disconnecting from the database, and the process exit on failure, are not modelled; the
 * console output is returned as the list of lines written.
 */
module RemovePlainPasswords {
  import opened Wrappers
  import opened Strings
  import opened UserStore
  import SignupRoute

  /** `BCRYPT_HASH_PREFIX.test(value)` for `/^\$2[aby]\$/`. */
  predicate IsBcryptHash(value: string) {
    |value| >= 4 && value[0] == '$' && value[1] == '2' && value[2] in {'a', 'b', 'y'} && value[3] == '$'
  }

  /** The pattern accepts exactly the values starting with one of the three bcrypt version tags. */
  lemma BcryptPrefixes(value: string)
    ensures IsBcryptHash(value) <==>
      StartsWith(value, "$2a$") || StartsWith(value, "$2b$") || StartsWith(value, "$2y$")
  {
    if IsBcryptHash(value) {
      assert value[..4] == ['$', '2', value[2], '$'];
    }
  }

  /** `users.filter((u) => !isBcryptHash(u.password))`. */
  function PlainUsers(rows: seq<User>): (r: seq<User>)
    ensures |r| <= |rows|
    ensures forall u | u in r :: u in rows && !IsBcryptHash(u.password)
    ensures forall u | u in rows && !IsBcryptHash(u.password) :: u in r
  {
    if rows == [] then []
    else (if IsBcryptHash(rows[0].password) then [] else [rows[0]]) + PlainUsers(rows[1..])
  }

  /** The users that stay: those whose password is a bcrypt hash, in table order. */
  function HashedUsers(rows: seq<User>): (r: seq<User>)
    ensures forall u | u in r :: u in rows && IsBcryptHash(u.password)
  {
    if rows == [] then []
    else (if IsBcryptHash(rows[0].password) then [rows[0]] else []) + HashedUsers(rows[1..])
  }

  /** `plainPasswordUsers.map((u) => u.id)`, as the set `deleteMany` matches against. */
  function PlainIds(rows: seq<User>): (ids: set<nat>)
    ensures forall u | u in PlainUsers(rows) :: u.id in ids
    ensures forall id | id in ids :: exists u | u in PlainUsers(rows) :: u.id == id
  {
    set u | u in PlainUsers(rows) :: u.id
  }

  /**
   * With ids unique, deleting by the selected ids removes exactly the plain-password users:
   * what is left is every bcrypt-hashed user, in order.
   */
  lemma {:induction false} DeleteKeepsHashed(rows: seq<User>, ids: set<nat>)
    requires forall i | 0 <= i < |rows| :: rows[i].id in ids <==> !IsBcryptHash(rows[i].password)
    ensures Without(rows, ids) == HashedUsers(rows)
    decreases |rows|
  {
    if rows != [] {
      assert forall i | 0 <= i < |rows[1..]| :: rows[1..][i] == rows[i + 1];
      DeleteKeepsHashed(rows[1..], ids);
    }
  }

  /** Under unique ids a row's id is selected exactly when its password is not a hash. */
  lemma SelectedIff(rows: seq<User>)
    requires UniqueIds(rows)
    ensures forall i | 0 <= i < |rows| :: rows[i].id in PlainIds(rows) <==> !IsBcryptHash(rows[i].password)
  {
    forall i | 0 <= i < |rows|
      ensures rows[i].id in PlainIds(rows) ==> !IsBcryptHash(rows[i].password)
    {
      if rows[i].id in PlainIds(rows) {
        var u :| u in PlainUsers(rows) && u.id == rows[i].id;
        var j :| 0 <= j < |rows| && rows[j] == u;
        assert i == j;
      }
    }
  }

  /** The hashed and the plain users together are the whole table. */
  lemma {:induction false} PartitionSizes(rows: seq<User>)
    ensures |HashedUsers(rows)| + |PlainUsers(rows)| == |rows|
  {
    if rows != [] {
      PartitionSizes(rows[1..]);
    }
  }

  /** One line of the listing: `  - ${u.email} (${u.id})`. */
  function ListingLine(u: User): string {
    "  - " + u.email + " (" + NatToString(u.id) + ")"
  }

  /** The listing of `users`, one line each, in order. */
  function Listing(users: seq<User>): (lines: seq<string>)
    ensures |lines| == |users|
    ensures forall i | 0 <= i < |users| :: lines[i] == ListingLine(users[i])
    decreases |users|
  {
    if users == [] then [] else Listing(users[..|users| - 1]) + [ListingLine(users[|users| - 1])]
  }

  const NothingToDo: string := "\U{2705} No users with plain-text passwords found."

  function FoundLine(n: nat): string {
    "Found " + NatToString(n) + " user(s) with plain-text passwords:"
  }

  function RemovedLine(n: nat): string {
    "\n\U{2705} Removed " + NatToString(n) + " user(s). They can sign up again with secure passwords."
  }

  /** The selection, with unique ids: deleting its ids leaves the hashed users and removes as many rows as were selected. */
  lemma SelectionDeletes(rows: seq<User>)
    requires UniqueIds(rows)
    ensures Without(rows, PlainIds(rows)) == HashedUsers(rows)
    ensures |rows| - |HashedUsers(rows)| == |PlainUsers(rows)|
  {
    SelectedIff(rows);
    DeleteKeepsHashed(rows, PlainIds(rows));
    PartitionSizes(rows);
  }

  /** `for (const u of plainPasswordUsers) console.log(...)`: the listing lines, in order. */
  method ListUsers(users: seq<User>) returns (lines: seq<string>)
    ensures lines == Listing(users)
  {
    lines := [];
    for i := 0 to |users|
      invariant lines == Listing(users[..i])
    {
      assert users[..i + 1][..i] == users[..i];
      lines := lines + [ListingLine(users[i])];
    }
    assert users[..|users|] == users;
  }

  /**
   * `main`: select the plain-password users; with none, report so and delete nothing;
   * otherwise list them, delete them by id and report the count. The count of a deletion is
   * in `removed` and is `None` when no deletion was issued.
   */
  method Run(table: UserTable) returns (log: seq<string>, removed: Option<nat>)
    requires table.Valid()
    modifies table`rows
    ensures table.Valid()
    ensures PlainUsers(old(table.rows)) == [] ==>
      table.rows == old(table.rows) && removed.None? && log == [NothingToDo]
    ensures PlainUsers(old(table.rows)) != [] ==>
      && table.rows == HashedUsers(old(table.rows))
      && removed == Some(|PlainUsers(old(table.rows))|)
      && log == [FoundLine(|PlainUsers(old(table.rows))|)] + Listing(PlainUsers(old(table.rows)))
                + [RemovedLine(removed.value)]
  {
    var users := table.rows;
    var plain := PlainUsers(users);
    if |plain| == 0 {
      return [NothingToDo], None;
    }
    var listing := ListUsers(plain);
    SelectionDeletes(users);
    var count := table.DeleteMany(PlainIds(users));
    log := [FoundLine(|plain|)] + listing + [RemovedLine(count)];
    removed := Some(count);
  }

  /**
   * After a run only bcrypt-hashed users remain, so a second run selects nobody and takes
   * the branch that deletes nothing.
   */
  lemma SecondRunSelectsNobody(rows: seq<User>)
    ensures forall u | u in HashedUsers(rows) :: IsBcryptHash(u.password)
    ensures PlainUsers(HashedUsers(rows)) == []
  {
    NoneSelected(HashedUsers(rows));
  }

  /** A table whose passwords are all bcrypt hashes has no plain-password users. */
  lemma {:induction false} NoneSelected(rows: seq<User>)
    requires forall u | u in rows :: IsBcryptHash(u.password)
    ensures PlainUsers(rows) == []
    decreases |rows|
  {
    if rows != [] {
      assert rows[0] in rows;
      assert forall u | u in rows[1..] :: u in rows;
      NoneSelected(rows[1..]);
    }
  }

  /**
   * A user signed up through the route while `hash` yields bcrypt hashes is never removed
   * by the script: the new row is among the users that stay.
   */
  lemma SignedUpUsersSurvive(rows: seq<User>, nextId: nat, b: SignupRoute.SignupBody, hash: string -> string,
                             nodeEnv: string, timestamp: string, createdAt: int)
    requires forall p :: IsBcryptHash(hash(p))
    requires SignupRoute.Signup(rows, nextId, Ok(b), hash, nodeEnv, timestamp, createdAt).2.status == 201
    ensures var rows' := SignupRoute.Signup(rows, nextId, Ok(b), hash, nodeEnv, timestamp, createdAt).0;
      rows'[|rows|] in HashedUsers(rows')
  {
    SignupRoute.SignupCreatesOne(rows, nextId, Ok(b), hash, nodeEnv, timestamp, createdAt);
    var rows' := SignupRoute.Signup(rows, nextId, Ok(b), hash, nodeEnv, timestamp, createdAt).0;
    HashedOfAppend(rows, rows'[|rows|]);
    assert rows' == rows + [rows'[|rows|]];
  }

  /** A hashed user appended to the table is among the users that stay. */
  lemma {:induction false} HashedOfAppend(rows: seq<User>, u: User)
    requires IsBcryptHash(u.password)
    ensures u in HashedUsers(rows + [u])
    decreases |rows|
  {
    if rows == [] {
      assert HashedUsers([u]) == [u] + HashedUsers([]);
    } else {
      assert (rows + [u])[1..] == rows[1..] + [u];
      HashedOfAppend(rows[1..], u);
    }
  }
}
