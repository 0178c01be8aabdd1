/**
 * The frontend's route table and its global guard (`router.beforeEach` in
 * fashion-analytics-frontend/src/router/index.ts). A navigation's matched
 * records are the chain from the top-level route down to the target; the
 * guard decides on their `meta` flags and on whether the store is logged in.
 */
module RouterGuard {
  import opened Wrappers

  datatype Meta = Meta(requiresAuth: bool, guest: bool)

  const NoMeta: Meta := Meta(false, false)
  const AuthOnly: Meta := Meta(true, false)
  const GuestOnly: Meta := Meta(false, true)

  datatype RouteRecord = RouteRecord(path: string, name: string, meta: Meta, children: seq<RouteRecord>)

  /** `next()` or `next({ name })`. */
  datatype Decision = Proceed | Redirect(name: string)

  const Routes: seq<RouteRecord> := [
    RouteRecord("/", "home", AuthOnly, []),
    RouteRecord("/login", "login", GuestOnly, []),
    RouteRecord("/register", "register", GuestOnly, []),
    RouteRecord("/dashboard", "dashboard", AuthOnly, []),
    RouteRecord("/analysis", "analysis", AuthOnly, [
      RouteRecord("region-sales", "region-sales", NoMeta, []),
      RouteRecord("clothing-type-sales", "clothing-type-sales", NoMeta, []),
      RouteRecord("price-range-sales", "price-range-sales", NoMeta, []),
      RouteRecord("rating-distribution", "rating-distribution", NoMeta, [])
    ]),
    RouteRecord("/forecast", "forecast", AuthOnly, [
      RouteRecord("sales", "sales-forecast", NoMeta, []),
      RouteRecord("price", "price-forecast", NoMeta, [])
    ])
  ]

  /** `matched.some(record => record.meta.requiresAuth)`. */
  function AnyRequiresAuth(matched: seq<Meta>): (b: bool)
    ensures b <==> exists i :: 0 <= i < |matched| && matched[i].requiresAuth
  {
    if matched == [] then false else matched[0].requiresAuth || AnyRequiresAuth(matched[1..])
  }

  /** `matched.some(record => record.meta.guest)`. */
  function AnyGuest(matched: seq<Meta>): (b: bool)
    ensures b <==> exists i :: 0 <= i < |matched| && matched[i].guest
  {
    if matched == [] then false else matched[0].guest || AnyGuest(matched[1..])
  }

  /**
   * The guard: a route that requires authentication sends a logged-out user
   * to `login`; otherwise a guest route sends a logged-in user to
   * `dashboard`; every other navigation proceeds.
   */
  function Guard(matched: seq<Meta>, isLoggedIn: bool): (d: Decision)
    ensures (exists i :: 0 <= i < |matched| && matched[i].requiresAuth) ==>
      d == (if isLoggedIn then Proceed else Redirect("login"))
    ensures (forall i :: 0 <= i < |matched| ==> !matched[i].requiresAuth) &&
            (exists i :: 0 <= i < |matched| && matched[i].guest) ==>
      d == (if isLoggedIn then Redirect("dashboard") else Proceed)
    ensures (forall i :: 0 <= i < |matched| ==> !matched[i].requiresAuth && !matched[i].guest) ==>
      d == Proceed
  {
    if AnyRequiresAuth(matched) then
      if !isLoggedIn then Redirect("login") else Proceed
    else if AnyGuest(matched) then
      if isLoggedIn then Redirect("dashboard") else Proceed
    else
      Proceed
  }

  /** The metas of the records matched by the route named `name`: its ancestors' first, then its own. */
  function Matched(routes: seq<RouteRecord>, name: string): (m: Option<seq<Meta>>)
    ensures m.Some? ==> |m.value| > 0
    decreases routes
  {
    if routes == [] then None
    else
      var r := routes[0];
      if r.name == name then Some([r.meta])
      else match Matched(r.children, name)
        case Some(below) => Some([r.meta] + below)
        case None => Matched(routes[1..], name)
  }

  /** Records before the `k`-th that neither are nor contain the named route do not affect its match. */
  lemma {:induction false} SkipUnmatched(routes: seq<RouteRecord>, k: nat, name: string)
    requires k <= |routes|
    requires forall j :: 0 <= j < k ==> routes[j].name != name && Matched(routes[j].children, name) == None
    ensures Matched(routes, name) == Matched(routes[k..], name)
  {
    if k > 0 {
      SkipUnmatched(routes[1..], k - 1, name);
      assert routes[1..][k - 1..] == routes[k..];
    }
  }

  /** The child at position `i` of the `p`-th top-level route, for a route with children. */
  lemma {:induction false} MatchedChild(p: nat, i: nat)
    requires p < |Routes| && i < |Routes[p].children|
    requires forall j :: 0 <= j < p ==>
      Routes[j].name != Routes[p].children[i].name && Matched(Routes[j].children, Routes[p].children[i].name) == None
    requires Routes[p].name != Routes[p].children[i].name
    requires forall j :: 0 <= j < i ==> Routes[p].children[j].name != Routes[p].children[i].name
    requires forall j :: 0 <= j < |Routes[p].children| ==> Routes[p].children[j].children == []
    ensures Matched(Routes, Routes[p].children[i].name) == Some([Routes[p].meta, Routes[p].children[i].meta])
  {
    var name := Routes[p].children[i].name;
    var kids := Routes[p].children;
    SkipUnmatched(kids, i, name);
    assert kids[i..][0] == kids[i];
    assert Matched(kids, name) == Some([kids[i].meta]);
    SkipUnmatched(Routes, p, name);
    assert Routes[p..][0] == Routes[p];
    assert [Routes[p].meta] + [kids[i].meta] == [Routes[p].meta, kids[i].meta];
  }

  /** Every child of `/analysis` and `/forecast` matches its parent first, so it requires authentication. */
  lemma ChildrenAreProtected(p: nat, i: nat)
    requires p == 4 || p == 5
    requires i < |Routes[p].children|
    ensures Matched(Routes, Routes[p].children[i].name) == Some([AuthOnly, NoMeta])
    ensures Guard(Matched(Routes, Routes[p].children[i].name).value, false) == Redirect("login")
    ensures Guard(Matched(Routes, Routes[p].children[i].name).value, true) == Proceed
  {
    if p == 4 {
      AnalysisChildMatched(i);
    } else {
      ForecastChildMatched(i);
    }
    assert AnyRequiresAuth([AuthOnly, NoMeta]);
  }

  /** A child of `/analysis` matches `/analysis` first: no earlier route has its name or any children. */
  lemma AnalysisChildMatched(i: nat)
    requires i < |Routes[4].children|
    ensures Matched(Routes, Routes[4].children[i].name) == Some([AuthOnly, NoMeta])
  {
    var name := Routes[4].children[i].name;
    forall j | 0 <= j < 4
      ensures Routes[j].name != name && Matched(Routes[j].children, name) == None
    {
      assert Routes[j].children == [];
    }
    MatchedChild(4, i);
  }

  /** A child of `/forecast` matches `/forecast` first: its name is not among the earlier routes or their children. */
  lemma ForecastChildMatched(i: nat)
    requires i < |Routes[5].children|
    ensures Matched(Routes, Routes[5].children[i].name) == Some([AuthOnly, NoMeta])
  {
    ForecastChildUnmatchedBefore(i);
    MatchedChild(5, i);
  }

  lemma ForecastChildUnmatchedBefore(i: nat)
    requires i < |Routes[5].children|
    ensures forall j :: 0 <= j < 5 ==>
      Routes[j].name != Routes[5].children[i].name && Matched(Routes[j].children, Routes[5].children[i].name) == None
  {
    var name := Routes[5].children[i].name;
    var kids := Routes[4].children;
    assert forall j :: 0 <= j < 4 ==> kids[j].name != name;
    SkipUnmatched(kids, 4, name);
    forall j | 0 <= j < 4
      ensures Routes[j].name != name && Matched(Routes[j].children, name) == None
    {
      assert Routes[j].children == [];
    }
  }

  /** Where the guard redirects, the guard lets the same user through: no navigation loops. */
  lemma NoRedirectLoop(isLoggedIn: bool)
    ensures Matched(Routes, "login") == Some([GuestOnly])
    ensures Matched(Routes, "dashboard") == Some([AuthOnly])
    ensures !isLoggedIn ==> Guard(Matched(Routes, "login").value, isLoggedIn) == Proceed
    ensures isLoggedIn ==> Guard(Matched(Routes, "dashboard").value, isLoggedIn) == Proceed
  {
    SkipUnmatched(Routes, 1, "login");
    SkipUnmatched(Routes, 3, "dashboard");
  }

  /** Every redirect target is one of the two routes `NoRedirectLoop` lets through. */
  lemma RedirectTargets(matched: seq<Meta>, isLoggedIn: bool)
    ensures Guard(matched, isLoggedIn).Redirect? ==>
      (!isLoggedIn && Guard(matched, isLoggedIn) == Redirect("login"))
      || (isLoggedIn && Guard(matched, isLoggedIn) == Redirect("dashboard"))
  {
  }

  /** A route flagged both ways is treated as requiring authentication: `requiresAuth` is checked first. */
  lemma RequiresAuthTakesPrecedence(matched: seq<Meta>)
    requires exists i :: 0 <= i < |matched| && matched[i].requiresAuth
    requires exists i :: 0 <= i < |matched| && matched[i].guest
    ensures Guard(matched, true) == Proceed
    ensures Guard(matched, false) == Redirect("login")
  {
  }
}
