/** `getUserByEmail` of views/helpers.js: a read-only for-in search over a users table
    that returns the first user whose email is exactly the one asked for. */
module ViewHelpers {
  import opened Tables
  import opened Records

  /** No user visited at positions `lo` (inclusive) to `hi` (exclusive) has this email. */
  ghost predicate NoMatchBetween(email: string, db: Dict<User>, lo: int, hi: int)
    requires db.Valid()
  {
    forall j :: lo <= j < hi && 0 <= j < |db.keys| ==> db.vals[db.keys[j]].email != email
  }

  /** Position `j` is where the for-in search over `db` stops for `email`. */
  ghost predicate IsFirstMatch(email: string, db: Dict<User>, j: int)
    requires db.Valid()
  {
    0 <= j < |db.keys| && db.vals[db.keys[j]].email == email && NoMatchBetween(email, db, 0, j)
  }

  /** The search from position `i` on. */
  function Scan(email: string, db: Dict<User>, i: nat): (r: Option<User>)
    requires db.Valid() && i <= |db.keys|
    decreases |db.keys| - i
    ensures r.None? <==> NoMatchBetween(email, db, i, |db.keys|)
    ensures r.Some? ==> exists j :: i <= j < |db.keys| && db.vals[db.keys[j]].email == email
                                    && NoMatchBetween(email, db, i, j) && r.value == db.vals[db.keys[j]]
  {
    if i == |db.keys| then None
    else if db.vals[db.keys[i]].email == email then Some(db.vals[db.keys[i]])
    else Scan(email, db, i + 1)
  }

  /** `getUserByEmail(email, database)`: `null` is `None`. */
  function GetUserByEmail(email: string, database: Dict<User>): (r: Option<User>)
    requires database.Valid()
    ensures r.Some? ==> r.value.email == email
    ensures r.Some? ==> exists k :: k in database.vals && database.vals[k] == r.value
    ensures r.None? <==> forall k :: k in database.vals ==> database.vals[k].email != email
    ensures r.Some? ==> exists j :: IsFirstMatch(email, database, j) && r.value == database.vals[database.keys[j]]
  {
    var r := Scan(email, database, 0);
    if r.None? then
      assert forall k :: k in database.vals ==> database.vals[k].email != email by {
        forall k | k in database.vals ensures database.vals[k].email != email {
          assert database.keys[IndexOf(database.keys, k)] == k;
        }
      }
      r
    else
      r
  }

  /** Whatever position the first match is at, that is the user returned: an entry
      with the same email visited later is never returned. */
  lemma FirstMatchIsReturned(email: string, database: Dict<User>, j: int)
    requires database.Valid() && IsFirstMatch(email, database, j)
    ensures GetUserByEmail(email, database) == Some(database.vals[database.keys[j]])
  {
    var r := GetUserByEmail(email, database);
    assert r.Some?;
    var j' :| IsFirstMatch(email, database, j') && r.value == database.vals[database.keys[j']];
    assert j' == j;
  }

  /** No two users hold the same email. */
  ghost predicate EmailsUnique(database: Dict<User>)
  {
    forall k1, k2 :: k1 in database.vals && k2 in database.vals && k1 != k2 ==>
      database.vals[k1].email != database.vals[k2].email
  }

  /** While emails are unique the search is unambiguous: it returns the one user that
      holds the email, wherever that user sits in the iteration order. */
  lemma UniqueEmailLookup(email: string, database: Dict<User>, k: string)
    requires database.Valid() && EmailsUnique(database)
    requires k in database.vals && database.vals[k].email == email
    ensures GetUserByEmail(email, database) == Some(database.vals[k])
  {
    var r := GetUserByEmail(email, database);
    assert r.Some?;
    var k' :| k' in database.vals && database.vals[k'] == r.value;
    assert k' == k;
  }
}
