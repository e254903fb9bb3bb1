/**
 * The sidebar's navigation: each link label becomes a route path, the link whose
 * path equals the current location is highlighted, and the profile card shows a
 * guest when the user record is empty.
 */
module Sidebar {
  import opened Strings

  /** The six labels in the order the sidebar lists them. */
  const Links: seq<string> :=
    ["Dashboard", "Medications", "Challenges", "Health Insights", "Appointments", "Notifications"]

  /** The six routes the application declares for its pages, in the same order. */
  const Routes: seq<string> :=
    ["/dashboard", "/medications", "/challenges", "/health-insights", "/appointments", "/notifications"]

  /** `"/" + link.toLowerCase().replace(/ /g, "-")`. */
  function LinkPath(link: string): (path: string)
    ensures |path| == |link| + 1 && path[0] == '/'
    ensures forall k :: 0 <= k < |link| ==> path[k + 1] == PathChar(link[k])
  {
    "/" + ReplaceAll(Lower(link), ' ', '-')
  }

  /** What one character of the link becomes in the path: lower case, with a space turned into '-'. */
  function PathChar(c: char): char
  {
    if c == ' ' then '-' else LowerChar(c)
  }

  /** The shape of every path: leading '/', one character longer than the link, no space left. */
  lemma PathShape(link: string)
    ensures |LinkPath(link)| == |link| + 1 && LinkPath(link)[0] == '/'
    ensures ' ' !in LinkPath(link)
  {
    var path := LinkPath(link);
    forall k | 1 <= k < |path| ensures path[k] != ' ' {
      assert path[k] == PathChar(link[k - 1]);
    }
  }

  /** A link's path is the given route when they agree character by character. */
  lemma {:induction false} PathIs(link: string, route: string)
    requires |route| == |link| + 1 && route[0] == '/'
    requires forall k :: 0 <= k < |link| ==> route[k + 1] == PathChar(link[k])
    ensures LinkPath(link) == route
  {
    var path := LinkPath(link);
    forall k | 1 <= k < |path| ensures path[k] == route[k] {
      assert path[k] == PathChar(link[k - 1]);
    }
  }

  /** Every sidebar link leads to the route the application declares for its page. */
  lemma LinksReachRoutes()
    ensures |Links| == |Routes| == 6
    ensures forall i :: 0 <= i < |Links| ==> LinkPath(Links[i]) == Routes[i]
  {
    PathIs(Links[0], Routes[0]);
    PathIs(Links[1], Routes[1]);
    PathIs(Links[2], Routes[2]);
    PathIs(Links[3], Routes[3]);
    PathIs(Links[4], Routes[4]);
    PathIs(Links[5], Routes[5]);
  }

  /** A link is highlighted when the current location is its path. */
  function IsActive(pathname: string, link: string): (active: bool)
    ensures active <==> (|pathname| == |link| + 1 && pathname[0] == '/' &&
                         forall k :: 0 <= k < |link| ==> pathname[k + 1] == PathChar(link[k]))
  {
    pathname == LinkPath(link)
  }

  /** Since the six paths differ, at most one sidebar link is highlighted at any location. */
  lemma AtMostOneActive(pathname: string, i: nat, j: nat)
    requires i < j < |Links|
    ensures !(IsActive(pathname, Links[i]) && IsActive(pathname, Links[j]))
  {
    LinksReachRoutes();
    assert |Routes[i]| != |Routes[j]|;
  }

  /** On its own page a link is highlighted, and no other link is. */
  lemma ActiveOnOwnRoute(i: nat, j: nat)
    requires i < |Links| && j < |Links|
    ensures IsActive(Routes[i], Links[j]) <==> i == j
  {
    LinksReachRoutes();
    if i != j {
      assert |Routes[i]| != |Routes[j]|;
    }
  }

  /** The user record the profile card receives. */
  datatype User = User(name: string, email: string, avatar: string)

  /** `!user.name && !user.email && !user.avatar`, where an empty string is falsy. */
  function IsGuest(user: User): (guest: bool)
    ensures guest <==> user == User("", "", "")
  {
    user.name == "" && user.email == "" && user.avatar == ""
  }

  /** The two text lines of the profile card. */
  function ProfileCard(user: User): (lines: (string, string))
    ensures user == User("", "", "") ==> lines == ("Guest", "Not logged in")
    ensures user != User("", "", "") ==> lines == (user.name, user.email)
  {
    if IsGuest(user) then ("Guest", "Not logged in") else (user.name, user.email)
  }
}
