/** bcrypt's `hashSync` and `compareSync`, idealised.  A digest is a value of its own
    type, never a password string; it records the cost factor and the salt it was made
    with and commits to exactly one password, so that `CompareSync` accepts that
    password and no other (a collision-free hash). */
module Bcrypt {

  datatype Digest = Digest(cost: nat, salt: string, committed: string)

  /** `bcrypt.hashSync(password, cost)`; the random salt is a parameter. */
  function HashSync(password: string, cost: nat, salt: string): (d: Digest)
    ensures d.cost == cost && d.salt == salt
    ensures CompareSync(password, d)
  {
    Digest(cost, salt, password)
  }

  /** `bcrypt.compareSync(password, digest)` for a string password: true exactly when
      hashing `password` with the digest's own cost and salt gives this digest. */
  predicate CompareSync(password: string, d: Digest): (ok: bool)
    ensures ok <==> Digest(d.cost, d.salt, password) == d
  {
    d.committed == password
  }

  /** A digest accepts the password it was made from and nothing else, whatever the
      salt and cost. */
  lemma CompareSyncOnlyOriginal(password: string, candidate: string, cost: nat, salt: string)
    ensures CompareSync(candidate, HashSync(password, cost, salt)) <==> candidate == password
  {
  }
}

/** The records the two tables hold, and the truthiness test the handlers apply to
    form fields. */
module Records {
  import opened Tables
  import opened Bcrypt

  /** An entry of `users`: `{id, email, password}`, where `password` is a digest. */
  datatype User = User(id: string, email: string, password: Digest)

  /** An entry of `urlDatabase`: `{longURL, userID}`.  `longURL` comes straight from a
      form field, so it may be `undefined` (`None`). */
  datatype Link = Link(longURL: Option<string>, userID: string)

  /** A form field as the body parser delivers it: `None` when the field is absent. */
  type Field = Option<string>

  /** JavaScript truthiness of a field (`!f` is false): present and not the empty string. */
  predicate Truthy(f: Field): (b: bool)
    ensures f.None? ==> !b
    ensures f == Some("") ==> !b
    ensures f.Some? && |f.value| > 0 ==> b
  {
    f.Some? && f.value != ""
  }
}
