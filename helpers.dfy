/** helpers.js: the lookups over the two tables and the short-id generator. */
module Helpers {
  import opened Tables
  import opened Records
  import ViewHelpers

  /** The 62 characters a short id is drawn from. */
  const Alphabet := "0123456789abcdefghijklmnopqrstuvwxyzABCDEFGHIJKLMNOPQRSTUVWXYZ"
  /** Number of characters in a generated id. */
  const TokenLength := 6

  /** Every draw lies in [0, 1), as `Math.random()` promises. */
  predicate ValidRolls(rolls: seq<real>)
  {
    forall i :: 0 <= i < |rolls| ==> 0.0 <= rolls[i] < 1.0
  }

  /** `Math.floor(roll * chars.length)`, computed over the reals. */
  function Pick(roll: real): (i: nat)
    requires 0.0 <= roll < 1.0
    ensures i < |Alphabet|
  {
    (roll * |Alphabet| as real).Floor
  }

  /** A draw that picks the character at position `n`. */
  function DrawFor(n: nat): (roll: real)
    requires n < |Alphabet|
    ensures 0.0 <= roll < 1.0 && Pick(roll) == n
  {
    var roll := n as real / |Alphabet| as real;
    assert roll * |Alphabet| as real == n as real;
    roll
  }

  /** The string the generator's loop builds from the draws `rolls`, one character per draw. */
  function Token(rolls: seq<real>): (s: string)
    requires ValidRolls(rolls)
    ensures |s| == |rolls|
    ensures forall i :: 0 <= i < |s| ==> s[i] in Alphabet
  {
    if rolls == [] then ""
    else Token(rolls[..|rolls| - 1]) + [Alphabet[Pick(rolls[|rolls| - 1])]]
  }

  /** Every string over the alphabet is produced by some draws: the generator ranges over
      the whole space of 62^n tokens. */
  lemma {:induction false} EveryTokenReachable(s: string)
    requires forall i :: 0 <= i < |s| ==> s[i] in Alphabet
    ensures exists rolls :: ValidRolls(rolls) && Token(rolls) == s
  {
    if s == [] {
      assert ValidRolls([]) && Token([]) == s;
    } else {
      var init := s[..|s| - 1];
      EveryTokenReachable(init);
      var rolls :| ValidRolls(rolls) && Token(rolls) == init;
      var n := IndexOf(Alphabet, s[|s| - 1]);
      var roll := DrawFor(n);
      var rolls' := rolls + [roll];
      assert rolls'[..|rolls'| - 1] == rolls && rolls'[|rolls'| - 1] == roll;
      assert Token(rolls') == init + [Alphabet[n]];
      assert init + [s[|s| - 1]] == s;
    }
  }

  /** `generateRandomString()`: `rolls` are the six values `Math.random()` returns. */
  method GenerateRandomString(rolls: seq<real>) returns (randomString: string)
    requires |rolls| == TokenLength && ValidRolls(rolls)
    ensures randomString == Token(rolls)
    ensures |randomString| == TokenLength
    ensures forall i :: 0 <= i < |randomString| ==> randomString[i] in Alphabet
  {
    randomString := "";
    for i := 0 to TokenLength
      invariant randomString == Token(rolls[..i])
    {
      randomString := randomString + [Alphabet[Pick(rolls[i])]];
      assert rolls[..i + 1][..i] == rolls[..i];
    }
    assert rolls[..TokenLength] == rolls;
  }

  /** `getUserByEmail(email, database)`: the for-in loop with its early return.  It
      returns exactly what the copy in views/helpers.js returns. */
  method GetUserByEmail(email: string, database: Dict<User>) returns (r: Option<User>)
    requires database.Valid()
    ensures r == ViewHelpers.GetUserByEmail(email, database)
  {
    var i := 0;
    while i < |database.keys|
      invariant i <= |database.keys|
      invariant ViewHelpers.Scan(email, database, i) == ViewHelpers.Scan(email, database, 0)
    {
      var userID := database.keys[i];
      if database.vals[userID].email == email {
        return Some(database.vals[userID]);
      }
      i := i + 1;
    }
    return None;
  }

  /** `getUserByID(id, users)`: `users[id]`, `undefined` when `id` is not a key. */
  function GetUserByID(id: string, users: Dict<User>): (r: Option<User>)
    ensures r.Some? <==> id in users.vals
    ensures r.Some? ==> r.value == users.vals[id]
  {
    users.Get(id)
  }

  /** The keys among `keys` whose link belongs to `id`, in the same order. */
  function OwnedKeys(id: string, keys: seq<string>, vals: map<string, Link>): (s: seq<string>)
  {
    if keys == [] then []
    else
      var k := keys[|keys| - 1];
      OwnedKeys(id, keys[..|keys| - 1], vals) + (if k in vals && vals[k].userID == id then [k] else [])
  }

  /** The object `urlsForUser` has built once its loop has visited `keys`. */
  function Collect(id: string, keys: seq<string>, vals: map<string, Link>): (d: Dict<Link>)
    requires Distinct(keys)
    ensures d.Valid()
    ensures d.keys == OwnedKeys(id, keys, vals)
    ensures forall k :: k in d.vals <==> k in keys && k in vals && vals[k].userID == id
    ensures forall k :: k in d.vals ==> d.vals[k] == vals[k]
  {
    if keys == [] then Empty()
    else
      var k := keys[|keys| - 1];
      var init := keys[..|keys| - 1];
      assert Distinct(init);
      assert forall j :: j in keys <==> j in init || j == k;
      var d := Collect(id, init, vals);
      if k in vals && vals[k].userID == id then d.Put(k, vals[k]) else d
  }

  /** The links of `id`, keyed and ordered as in `urlDatabase`. */
  function UserUrls(id: string, urlDatabase: Dict<Link>): (d: Dict<Link>)
    requires urlDatabase.Valid()
    ensures d.Valid()
    ensures forall k :: k in d.vals ==> k in urlDatabase.vals && d.vals[k] == urlDatabase.vals[k]
    ensures forall k :: k in d.vals ==> d.vals[k].userID == id
    ensures forall k :: k in urlDatabase.vals && urlDatabase.vals[k].userID == id ==> k in d.vals
    ensures d.keys == OwnedKeys(id, urlDatabase.keys, urlDatabase.vals)
  {
    Collect(id, urlDatabase.keys, urlDatabase.vals)
  }

  /** One turn of the `urlsForUser` loop: visiting the entry at position `i` adds it
      exactly when it belongs to `id`. */
  lemma CollectStep(id: string, urlDatabase: Dict<Link>, i: nat)
    requires urlDatabase.Valid() && i < |urlDatabase.keys|
    ensures Distinct(urlDatabase.keys[..i]) && Distinct(urlDatabase.keys[..i + 1])
    ensures var k := urlDatabase.keys[i];
      Collect(id, urlDatabase.keys[..i + 1], urlDatabase.vals) ==
        if urlDatabase.vals[k].userID == id
        then Collect(id, urlDatabase.keys[..i], urlDatabase.vals).Put(k, urlDatabase.vals[k])
        else Collect(id, urlDatabase.keys[..i], urlDatabase.vals)
  {
    var s := urlDatabase.keys[..i + 1];
    assert s[..|s| - 1] == urlDatabase.keys[..i];
    assert s[|s| - 1] == urlDatabase.keys[i];
  }

  /** `urlsForUser(id, urlDatabase)`: copies each entry owned by `id` into a fresh object. */
  method UrlsForUser(id: string, urlDatabase: Dict<Link>) returns (userURLs: Dict<Link>)
    requires urlDatabase.Valid()
    ensures userURLs == UserUrls(id, urlDatabase)
  {
    userURLs := Empty();
    for i := 0 to |urlDatabase.keys|
      invariant userURLs == Collect(id, urlDatabase.keys[..i], urlDatabase.vals)
    {
      var shortURL := urlDatabase.keys[i];
      CollectStep(id, urlDatabase, i);
      if urlDatabase.vals[shortURL].userID == id {
        userURLs := userURLs.Put(shortURL, urlDatabase.vals[shortURL]);
      }
    }
    assert urlDatabase.keys[..|urlDatabase.keys|] == urlDatabase.keys;
  }
}
