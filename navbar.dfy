/** The navigation bar: which item is highlighted, and the mobile menu's open flag. */
module Navbar {
  import opened Wrappers
  import Stores
  import Profile

  /** The item paths, in display order. */
  const NavPaths: seq<string> := ["/", "/books", "/history", "/leaderboard", "/profile"]

  /**
   * The highlight rule both lists use: the root item only on exactly `/`,
   * every other item whenever the path starts with its path, as plain text.
   */
  predicate IsActive(to: string, pathname: string) {
    if to == "/" then pathname == "/" else to <= pathname
  }

  /** The highlight of each item, in display order. */
  function ActiveFlags(pathname: string): (flags: seq<bool>)
    ensures |flags| == |NavPaths|
    ensures forall i :: 0 <= i < |NavPaths| ==> (flags[i] <==> IsActive(NavPaths[i], pathname))
  {
    seq(|NavPaths|, i requires 0 <= i < |NavPaths| => IsActive(NavPaths[i], pathname))
  }

  /** No two items are highlighted at once, whatever the path. */
  lemma AtMostOneActive(pathname: string, i: int, j: int)
    requires 0 <= i < j < |NavPaths| && IsActive(NavPaths[i], pathname)
    ensures !IsActive(NavPaths[j], pathname)
  {
    var a, b := NavPaths[i], NavPaths[j];
    assert |b| > 1 && b[1] != '/';
    if i == 0 {
      assert pathname == "/";
    }
  }

  /**
   * The rule does not look at path segments: every item but the root is
   * highlighted on any path that extends its own, whatever follows it (so
   * `/bookshelf` highlights the books item), while the root is highlighted
   * on `/` alone.
   */
  lemma PrefixIgnoresSegments(i: int, rest: string, pathname: string)
    requires 0 < i < |NavPaths|
    ensures IsActive(NavPaths[i], NavPaths[i] + rest)
    ensures IsActive(NavPaths[0], pathname) <==> pathname == "/"
    ensures IsActive("/books", "/bookshelf")
    ensures IsActive("/books", "/books/b1/topics")
    ensures !IsActive("/", "/books")
  {
    assert (NavPaths[i] + rest)[..|NavPaths[i]|] == NavPaths[i];
    assert "/books" == "/bookshelf"[..6];
    assert "/books" == "/books/b1/topics"[..6];
  }

  /**
   * The logged-in user's label: `displayName || email`. It is one of the two
   * fields, prefers a non-empty display name, and shows text exactly when
   * either field holds some.
   */
  function UserLabel(displayName: Option<string>, email: Option<string>): (shown: Option<string>)
    ensures shown == displayName || shown == email
    ensures displayName.Some? && displayName.value != "" ==> shown == displayName
    ensures displayName.None? || displayName.value == "" ==> shown == email
    ensures (shown.Some? && shown.value != "") <==>
      (displayName.Some? && displayName.value != "") || (email.Some? && email.value != "")
  {
    if displayName.Some? && displayName.value != "" then displayName else email
  }

  /**
   * The navigation bar and the profile heading name the user alike whenever
   * a display name is set.
   */
  lemma LabelAgreesWithHeading(displayName: Option<string>, email: Option<string>)
    requires displayName.Some? && displayName.value != ""
    ensures UserLabel(displayName, email) == Some(Profile.HeadingName(displayName, email))
  {
  }

  class MobileMenu {
    var mobileOpen: bool

    constructor ()
      ensures !mobileOpen
    {
      mobileOpen := false;
    }

    /** The menu button flips the panel. */
    method Toggle()
      modifies this
      ensures mobileOpen == !old(mobileOpen)
    {
      mobileOpen := !mobileOpen;
    }

    /** Following a link in the mobile panel closes it. */
    method FollowLink()
      modifies this
      ensures !mobileOpen
    {
      mobileOpen := false;
    }

    /** The mobile panel's log-out button: logs out, then closes the panel. */
    method Logout(client: Stores.Client)
      requires client.Valid()
      modifies this, client, client.auth, client.books, client.sessions
      ensures !mobileOpen && client.Valid()
      ensures client.auth.token == None && client.auth.userId == None
      ensures client.books.all == old(client.books.all) && client.sessions.all == old(client.sessions.all)
      ensures client.books.books == Stores.OwnedBy(client.books.all, "")
      ensures client.sessions.sessions == Stores.OwnedBy(client.sessions.all, "")
    {
      client.Logout();
      mobileOpen := false;
    }
  }
}
