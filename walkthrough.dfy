/** A client of the handlers' contracts: the ownership walk-through the application is
    built around, followed request by request on a fresh server. */
module Walkthrough {
  import opened Tables
  import opened Records
  import opened Server
  import Helpers
  import ViewHelpers

  /** User A registers and shortens a link: A sees its details, and a logged-out client
      gets the login prompt instead. */
  method OwnerSeesLink(rollsA: seq<real>, rollsLink: seq<real>, salt: string)
    requires |rollsA| == Helpers.TokenLength && Helpers.ValidRolls(rollsA)
    requires |rollsLink| == Helpers.TokenLength && Helpers.ValidRolls(rollsLink)
  {
    var app := new TinyApp(Empty(), Empty());
    var idA, link := Helpers.Token(rollsA), Helpers.Token(rollsLink);
    assert idA != UndefinedKey;

    var r := app.Register(Some("a@x.com"), Some("pw1"), rollsA, salt);
    assert app.session == Some(idA);
    r := app.CreateUrl(Some("http://www.lighthouselabs.ca"), rollsLink);
    r := app.ShowUrl(link);
    assert r == Render("urls_show", Show(app.users.vals[idA], link, Some("http://www.lighthouselabs.ca")));

    r := app.Logout();
    r := app.ShowUrl(link);
    assert r == Send(200, MsgLoginToViewDetails);
  }

  /** User A shortens a link; a second user B can neither see nor delete it. */
  method OtherUserIsRefused(rollsA: seq<real>, rollsB: seq<real>, rollsLink: seq<real>, salt: string)
    requires |rollsA| == Helpers.TokenLength && Helpers.ValidRolls(rollsA)
    requires |rollsB| == Helpers.TokenLength && Helpers.ValidRolls(rollsB)
    requires |rollsLink| == Helpers.TokenLength && Helpers.ValidRolls(rollsLink)
    requires Helpers.Token(rollsA) != Helpers.Token(rollsB)
  {
    var app := new TinyApp(Empty(), Empty());
    var idA, idB, link := Helpers.Token(rollsA), Helpers.Token(rollsB), Helpers.Token(rollsLink);

    var r := app.Register(Some("a@x.com"), Some("pw1"), rollsA, salt);
    r := app.CreateUrl(Some("http://www.lighthouselabs.ca"), rollsLink);
    assert app.urlDatabase.vals[link].userID == idA;
    r := app.Logout();

    assert !EmailTaken(app.users, "b@x.com") by {
      assert app.users.vals.Keys == {idA};
    }
    r := app.Register(Some("b@x.com"), Some("pw2"), rollsB, salt);
    assert app.session == Some(idB);
    r := app.ShowUrl(link);
    assert r == Send(403, MsgNotYours);
    r := app.DeleteUrl(link);
    assert r == Send(403, MsgNotYoursDelete);
  }

  /** User A registers, shortens a link, logs out and back in, and deletes the link;
      deleting it again finds nothing, and following it answers 404. */
  method DeletionWalkthrough(rollsA: seq<real>, rollsLink: seq<real>, salt: string)
    requires |rollsA| == Helpers.TokenLength && Helpers.ValidRolls(rollsA)
    requires |rollsLink| == Helpers.TokenLength && Helpers.ValidRolls(rollsLink)
  {
    var app := new TinyApp(Empty(), Empty());
    var idA, link := Helpers.Token(rollsA), Helpers.Token(rollsLink);

    var r := app.Register(Some("a@x.com"), Some("pw1"), rollsA, salt);
    r := app.CreateUrl(Some("http://www.lighthouselabs.ca"), rollsLink);
    assert r == Redirect("/urls/" + link);
    assert Follow(app.urlDatabase, link) == Redirect("http://www.lighthouselabs.ca");

    r := app.Logout();
    ViewHelpers.UniqueEmailLookup("a@x.com", app.users, idA);
    r := app.Login(Some("a@x.com"), Some("pw1"));
    assert r == Redirect("/urls") && app.session == Some(idA);
    r := app.DeleteUrl(link);
    assert r == Redirect("/urls");
    r := app.DeleteUrl(link);
    assert r == Send(404, MsgNotFoundDelete);
    assert Follow(app.urlDatabase, link) == Send(404, MsgNotFoundRedirect);
  }
}
