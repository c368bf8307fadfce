/** express_server.js without the framework: the route handlers as a state machine over
    the two tables (`users`, `urlDatabase`) and the session slot `req.session.user_id`.
    Each handler checks its guards in the source's order and answers with a response
    value; only a handler whose guards all pass changes a table or the session. */
module Server {
  import opened Tables
  import opened Bcrypt
  import opened Records
  import Helpers
  import ViewHelpers

  /** The cost factor passed to `bcrypt.hashSync`. */
  const SaltRounds := 10
  /** The property key JavaScript reads for `users[req.session.user_id]` when no id is set. */
  const UndefinedKey := "undefined"

  const MsgLoginToViewUrls := "Please log in or register to view URLs."
  const MsgLoginToViewDetails := "Please log in to view URL details."
  const MsgNotFound := "Short URL not found."
  const MsgNotFoundDelete := "Short URL not found"
  const MsgNotFoundRedirect := "Short URL not found!"
  const MsgNotYours := "This URL does not belong to you!"
  const MsgMissingFields := "You must provide both an email and a password."
  const MsgEmailExists := "Email already exists. Proceed to login or try again."
  const MsgBadCredentials := "Email or password is incorrect."
  const MsgLoginToShorten := "You must be logged in to shorten a URL."
  const MsgLoginToEdit := "You must be logged in to edit long URLs."
  const MsgNotYoursUpdate := "You cannot update an URL that does not belong to you."
  const MsgLoginToDelete := "You must be logged in to delete URLs."
  const MsgNotYoursDelete := "You cannot delete an URL that does not belong to you."
  /** The TypeError raised by reading `.longURL` of `undefined`. */
  const ErrReadLongURL := "Cannot read properties of undefined (reading 'longURL')"
  /** What bcryptjs's `compareSync` throws when the password is not a string. */
  const ErrIllegalArguments := "Illegal arguments: undefined, string"

  /** The template variables a handler passes to `res.render`. */
  datatype ViewData =
    | Page(visitor: Option<User>)
    | Index(user: User, urls: Dict<Link>)
    | Show(user: User, id: string, longURL: Option<string>)

  /** What a handler does with `res`. */
  datatype Response =
    | Send(status: nat, body: string)       // res.status(status).send(body); a bare res.send is 200
    | Redirect(location: string)            // res.redirect(location), a 302
    | Render(view: string, data: ViewData)  // res.render(view, data)
    | Thrown(error: string)                 // an exception escapes the handler; Express answers 500

  /** The outcome of the three checks the link routes make, in their order. */
  datatype Access = Anonymous | Missing | NotOwner | Owner

  /** Who may touch link `id`: nobody when logged out, then nobody when the link does not
      exist, then only the user whose id the link records. */
  function Guard(user: Option<User>, urlDatabase: Dict<Link>, id: string): (a: Access)
    ensures a == Anonymous <==> user.None?
    ensures a == Missing <==> user.Some? && id !in urlDatabase.vals
    ensures a == NotOwner <==> user.Some? && id in urlDatabase.vals && urlDatabase.vals[id].userID != user.value.id
    ensures a == Owner <==> user.Some? && id in urlDatabase.vals && urlDatabase.vals[id].userID == user.value.id
  {
    if user.None? then Anonymous
    else if id !in urlDatabase.vals then Missing
    else if urlDatabase.vals[id].userID != user.value.id then NotOwner
    else Owner
  }

  /** `req.session.user_id` used as a property key: an absent id reads key "undefined". */
  function SessionKey(session: Option<string>): (k: string)
    ensures session.Some? ==> k == session.value
    ensures session.None? ==> k == UndefinedKey
  {
    if session.Some? then session.value else UndefinedKey
  }

  /** Some user holds this email. */
  ghost predicate EmailTaken(users: Dict<User>, email: string)
  {
    exists k :: k in users.vals && users.vals[k].email == email
  }

  /** Every user is stored under its own id. */
  ghost predicate KeyedById(users: Dict<User>)
  {
    forall k :: k in users.vals ==> users.vals[k].id == k
  }

  /** Every link records the id of a registered user. */
  ghost predicate OwnersRegistered(users: Dict<User>, urlDatabase: Dict<Link>)
  {
    forall k :: k in urlDatabase.vals ==> urlDatabase.vals[k].userID in users.vals
  }

  /** GET /u/:id as written: `urlDatabase[id].longURL` is read before the 404 check, so an
      unknown id raises a TypeError instead of reaching it. */
  function FollowAsWritten(urlDatabase: Dict<Link>, id: string): (r: Response)
    ensures id !in urlDatabase.vals ==> r == Thrown(ErrReadLongURL)
    ensures id in urlDatabase.vals ==> r == Follow(urlDatabase, id)
  {
    if id !in urlDatabase.vals then Thrown(ErrReadLongURL)
    else
      var longURL := urlDatabase.vals[id].longURL;
      if !Truthy(longURL) then Send(404, MsgNotFoundRedirect)
      else Redirect(longURL.value)
  }

  /** A concrete request that shows the discrepancy: on an empty table, GET /u/b2xVn2
      fails with a TypeError rather than answering 404. */
  lemma FollowAsWrittenThrowsOnUnknownId()
    ensures FollowAsWritten(Empty(), "b2xVn2") == Thrown(ErrReadLongURL)
    ensures Follow(Empty(), "b2xVn2") == Send(404, MsgNotFoundRedirect)
  {
  }

  /** GET /u/:id with existence checked before the read: redirects exactly to the stored
      `longURL` when there is a truthy one, and answers 404 otherwise. */
  function Follow(urlDatabase: Dict<Link>, id: string): (r: Response)
    ensures r.Redirect? <==> id in urlDatabase.vals && Truthy(urlDatabase.vals[id].longURL)
    ensures r.Redirect? ==> urlDatabase.vals[id].longURL == Some(r.location)
    ensures !r.Redirect? ==> r == Send(404, MsgNotFoundRedirect)
  {
    if id !in urlDatabase.vals || !Truthy(urlDatabase.vals[id].longURL) then Send(404, MsgNotFoundRedirect)
    else Redirect(urlDatabase.vals[id].longURL.value)
  }

  /** The server's state: the two tables and the session of the client being served. */
  class TinyApp {
    var users: Dict<User>
    var urlDatabase: Dict<Link>
    /** `req.session.user_id`. */
    var session: Option<string>

    ghost predicate Valid()
      reads this
    {
      users.Valid() && urlDatabase.Valid()
    }

    /** What the tables keep once it holds: users stored under their ids, emails unique,
        every link owned by a registered user. */
    ghost predicate Consistent()
      reads this
    {
      KeyedById(users) && ViewHelpers.EmailsUnique(users) && OwnersRegistered(users, urlDatabase)
    }

    /** The tables as the data module seeds them, and a client with no session. */
    constructor (users0: Dict<User>, urls0: Dict<Link>)
      requires users0.Valid() && urls0.Valid()
      ensures Valid()
      ensures users == users0 && urlDatabase == urls0 && session == None
    {
      users := users0;
      urlDatabase := urls0;
      session := None;
    }

    /** `getUserByID(req.session.user_id, users)`. */
    function CurrentUser(): (u: Option<User>)
      reads this
      ensures u.Some? <==> SessionKey(session) in users.vals
      ensures u.Some? ==> u.value == users.vals[SessionKey(session)]
      ensures session.None? && UndefinedKey !in users.vals ==> u.None?
    {
      Helpers.GetUserByID(SessionKey(session), users)
    }

    /** GET /urls: the caller's own links, or a prompt to log in. */
    method ListUrls() returns (r: Response)
      requires Valid()
      ensures CurrentUser().None? ==> r == Send(200, MsgLoginToViewUrls)
      ensures CurrentUser().Some? ==>
        r == Render("urls_index", Index(CurrentUser().value, Helpers.UserUrls(CurrentUser().value.id, urlDatabase)))
      ensures r.Render? ==> forall k :: k in r.data.urls.vals ==> r.data.urls.vals[k].userID == CurrentUser().value.id
    {
      var user := Helpers.GetUserByID(SessionKey(session), users);
      if user.None? {
        return Send(200, MsgLoginToViewUrls);
      }
      var userURLs := Helpers.UrlsForUser(user.value.id, urlDatabase);
      r := Render("urls_index", Index(user.value, userURLs));
    }

    /** GET /urls/new: the creation form, for logged-in users only. */
    method NewUrlForm() returns (r: Response)
      ensures CurrentUser().None? ==> r == Redirect("/login")
      ensures CurrentUser().Some? ==> r == Render("urls_new", Page(CurrentUser()))
    {
      var user := Helpers.GetUserByID(SessionKey(session), users);
      if user.None? {
        return Redirect("/login");
      }
      r := Render("urls_new", Page(user));
    }

    /** GET /urls/:id: the link's detail page, shown to its owner only. */
    method ShowUrl(id: string) returns (r: Response)
      ensures var access := Guard(CurrentUser(), urlDatabase, id);
        && (access == Anonymous ==> r == Send(200, MsgLoginToViewDetails))
        && (access == Missing ==> r == Send(404, MsgNotFound))
        && (access == NotOwner ==> r == Send(403, MsgNotYours))
        && (access == Owner ==> r == Render("urls_show", Show(CurrentUser().value, id, urlDatabase.vals[id].longURL)))
      ensures r.Render? ==> CurrentUser().Some? && id in urlDatabase.vals
                            && urlDatabase.vals[id].userID == CurrentUser().value.id
    {
      var user := Helpers.GetUserByID(SessionKey(session), users);
      var shortURL := id;
      if user.None? {
        return Send(200, MsgLoginToViewDetails);
      }
      // A stored record is an object, so `!urlDatabase[shortURL]` holds only for a missing key.
      if shortURL !in urlDatabase.vals {
        return Send(404, MsgNotFound);
      }
      if urlDatabase.vals[shortURL].userID != user.value.id {
        return Send(403, MsgNotYours);
      }
      r := Render("urls_show", Show(user.value, shortURL, urlDatabase.vals[shortURL].longURL));
    }

    /** GET /login: logged-in users go to their list, others get the form. */
    method LoginForm() returns (r: Response)
      ensures CurrentUser().Some? ==> r == Redirect("/urls")
      ensures CurrentUser().None? ==> r == Render("login", Page(None))
    {
      var user := Helpers.GetUserByID(SessionKey(session), users);
      if user.Some? {
        return Redirect("/urls");
      }
      r := Render("login", Page(user));
    }

    /** GET /register: logged-in users go to their list, others get the form. */
    method RegisterForm() returns (r: Response)
      ensures CurrentUser().Some? ==> r == Redirect("/urls")
      ensures CurrentUser().None? ==> r == Render("register", Page(None))
    {
      var user := Helpers.GetUserByID(SessionKey(session), users);
      if user.Some? {
        return Redirect("/urls");
      }
      r := Render("register", Page(user));
    }

    /** POST /register: `rolls` are the draws behind the new id, `salt` bcrypt's salt. */
    method Register(email: Field, password: Field, rolls: seq<real>, salt: string) returns (r: Response)
      requires Valid()
      requires |rolls| == Helpers.TokenLength && Helpers.ValidRolls(rolls)
      modifies this
      ensures Valid() && urlDatabase == old(urlDatabase)
      ensures !Truthy(email) || !Truthy(password) ==>
        r == Send(400, MsgMissingFields) && users == old(users) && session == old(session)
      ensures Truthy(email) && Truthy(password) && EmailTaken(old(users), email.value) ==>
        r == Send(400, MsgEmailExists) && users == old(users) && session == old(session)
      ensures Truthy(email) && Truthy(password) && !EmailTaken(old(users), email.value) ==>
        var id := Helpers.Token(rolls);
        && users == old(users).Put(id, User(id, email.value, HashSync(password.value, SaltRounds, salt)))
        && session == Some(id)
        && r == Redirect("/urls")
      ensures old(ViewHelpers.EmailsUnique(users)) ==> ViewHelpers.EmailsUnique(users)
      ensures old(Consistent()) ==> Consistent()
    {
      if !Truthy(email) || !Truthy(password) {
        return Send(400, MsgMissingFields);
      }
      var existingUser := Helpers.GetUserByEmail(email.value, users);
      if existingUser.Some? {
        return Send(400, MsgEmailExists);
      }
      var id := Helpers.GenerateRandomString(rolls);
      var hashedPassword := HashSync(password.value, SaltRounds, salt);
      users := users.Put(id, User(id, email.value, hashedPassword));
      session := Some(id);
      r := Redirect("/urls");
    }

    /** POST /login: starts a session only for a user whose stored digest accepts the password. */
    method Login(email: Field, password: Field) returns (r: Response)
      requires Valid()
      modifies this
      ensures Valid() && users == old(users) && urlDatabase == old(urlDatabase)
      ensures var user := if email.Some? then ViewHelpers.GetUserByEmail(email.value, users) else None;
        && (user.None? ==> r == Send(403, MsgBadCredentials) && session == old(session))
        && (user.Some? && password.None? ==> r == Thrown(ErrIllegalArguments) && session == old(session))
        && (user.Some? && password.Some? && !CompareSync(password.value, user.value.password) ==>
              r == Send(403, MsgBadCredentials) && session == old(session))
        && (user.Some? && password.Some? && CompareSync(password.value, user.value.password) ==>
              r == Redirect("/urls") && session == Some(user.value.id))
      ensures session != old(session) ==>
        exists k :: k in users.vals && email == Some(users.vals[k].email) && password.Some?
                    && CompareSync(password.value, users.vals[k].password) && session == Some(users.vals[k].id)
    {
      // No stored email is `=== undefined`, so an absent email field finds no user.
      var user: Option<User> := None;
      if email.Some? {
        user := Helpers.GetUserByEmail(email.value, users);
      }
      if user.None? {
        return Send(403, MsgBadCredentials);
      }
      if password.None? {
        return Thrown(ErrIllegalArguments);
      }
      if !CompareSync(password.value, user.value.password) {
        return Send(403, MsgBadCredentials);
      }
      session := Some(user.value.id);
      r := Redirect("/urls");
    }

    /** POST /logout: forgets the session's user id. */
    method Logout() returns (r: Response)
      requires Valid()
      modifies this
      ensures Valid() && users == old(users) && urlDatabase == old(urlDatabase)
      ensures session == None && CurrentUser() == Helpers.GetUserByID(UndefinedKey, users)
      ensures r == Redirect("/login")
    {
      session := None;
      r := Redirect("/login");
    }

    /** POST /urls: stores the link under a generated key, owned by the caller.  Nothing
        checks the key is unused, so an existing link under it would be replaced. */
    method CreateUrl(longURL: Field, rolls: seq<real>) returns (r: Response)
      requires Valid()
      requires |rolls| == Helpers.TokenLength && Helpers.ValidRolls(rolls)
      modifies this
      ensures Valid() && users == old(users) && session == old(session)
      ensures old(CurrentUser()).None? ==> r == Send(403, MsgLoginToShorten) && urlDatabase == old(urlDatabase)
      ensures old(CurrentUser()).Some? ==>
        var shortURL := Helpers.Token(rolls);
        && urlDatabase == old(urlDatabase).Put(shortURL, Link(longURL, old(CurrentUser()).value.id))
        && r == Redirect("/urls/" + shortURL)
      ensures old(Consistent()) ==> Consistent()
    {
      var user := Helpers.GetUserByID(SessionKey(session), users);
      if user.None? {
        return Send(403, MsgLoginToShorten);
      }
      var shortURL := Helpers.GenerateRandomString(rolls);
      urlDatabase := urlDatabase.Put(shortURL, Link(longURL, user.value.id));
      r := Redirect("/urls/" + shortURL);
    }

    /** POST /urls/:id/update: the owner replaces the link's target. */
    method UpdateUrl(id: string, updatedLongURL: Field) returns (r: Response)
      requires Valid()
      modifies this
      ensures Valid() && users == old(users) && session == old(session)
      ensures var access := old(Guard(CurrentUser(), urlDatabase, id));
        && (access == Anonymous ==> r == Send(403, MsgLoginToEdit) && urlDatabase == old(urlDatabase))
        && (access == Missing ==> r == Send(404, MsgNotFound) && urlDatabase == old(urlDatabase))
        && (access == NotOwner ==> r == Send(403, MsgNotYoursUpdate) && urlDatabase == old(urlDatabase))
        && (access == Owner ==>
              && urlDatabase == old(urlDatabase).Put(id, Link(updatedLongURL, old(urlDatabase.vals[id].userID)))
              && r == Redirect("/urls"))
      ensures urlDatabase != old(urlDatabase) ==> old(Guard(CurrentUser(), urlDatabase, id)) == Owner
      ensures urlDatabase.keys == old(urlDatabase.keys)
      ensures forall k :: k != id ==> urlDatabase.Get(k) == old(urlDatabase).Get(k)
      ensures old(Consistent()) ==> Consistent()
    {
      var user := Helpers.GetUserByID(SessionKey(session), users);
      var shortURL := id;
      if user.None? {
        return Send(403, MsgLoginToEdit);
      }
      if shortURL !in urlDatabase.vals {
        return Send(404, MsgNotFound);
      }
      if urlDatabase.vals[shortURL].userID != user.value.id {
        return Send(403, MsgNotYoursUpdate);
      }
      urlDatabase := urlDatabase.Put(shortURL, urlDatabase.vals[shortURL].(longURL := updatedLongURL));
      r := Redirect("/urls");
    }

    /** POST /urls/:id/delete: the owner removes the link. */
    method DeleteUrl(id: string) returns (r: Response)
      requires Valid()
      modifies this
      ensures Valid() && users == old(users) && session == old(session)
      ensures var access := old(Guard(CurrentUser(), urlDatabase, id));
        && (access == Anonymous ==> r == Send(400, MsgLoginToDelete) && urlDatabase == old(urlDatabase))
        && (access == Missing ==> r == Send(404, MsgNotFoundDelete) && urlDatabase == old(urlDatabase))
        && (access == NotOwner ==> r == Send(403, MsgNotYoursDelete) && urlDatabase == old(urlDatabase))
        && (access == Owner ==> urlDatabase == old(urlDatabase).Remove(id) && r == Redirect("/urls"))
      ensures urlDatabase != old(urlDatabase) ==> old(Guard(CurrentUser(), urlDatabase, id)) == Owner
      ensures forall k :: k != id ==> urlDatabase.Get(k) == old(urlDatabase).Get(k)
      ensures old(Consistent()) ==> Consistent()
    {
      var user := Helpers.GetUserByID(SessionKey(session), users);
      var shortURL := id;
      if user.None? {
        return Send(400, MsgLoginToDelete);
      }
      if shortURL !in urlDatabase.vals {
        return Send(404, MsgNotFoundDelete);
      }
      if urlDatabase.vals[shortURL].userID != user.value.id {
        return Send(403, MsgNotYoursDelete);
      }
      urlDatabase := urlDatabase.Remove(shortURL);
      r := Redirect("/urls");
    }
  }
}
