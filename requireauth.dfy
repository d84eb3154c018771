// src/components/layout/RequireAuth.jsx: the guard around the signed-in routes. While the session is being
// restored it shows a "checking" state; afterwards a visitor who is not signed in is sent to /login with the
// path they wanted, which the login and register pages use as their destination.

module RequireAuth {
  import opened Js

  /** What `useLocation()` reports. */
  datatype Location = Location(pathname: string, search: string, hash: string)

  /** What the guard renders. */
  datatype Guard = Checking | RedirectToLogin(from: string, replace: bool) | Render

  /** The path remembered for after the login: pathname, query and fragment. */
  function FromPath(loc: Location): (r: string)
    ensures |r| == |loc.pathname| + |loc.search| + |loc.hash|
    ensures StartsWith(r, loc.pathname)
  {
    assert (loc.pathname + loc.search + loc.hash)[..|loc.pathname|] == loc.pathname;
    loc.pathname + loc.search + loc.hash
  }

  function Decide(loadingMe: bool, isAuthed: bool, loc: Location): (r: Guard)
    ensures r == Checking <==> loadingMe
    ensures r == Render <==> !loadingMe && isAuthed
    ensures r.RedirectToLogin? <==> !loadingMe && !isAuthed
    ensures r.RedirectToLogin? ==> r.replace && r.from == FromPath(loc)
  {
    if loadingMe then Checking
    else if !isAuthed then RedirectToLogin(FromPath(loc), true)
    else Render
  }

  /** `useLocation().state?.from || "/"`: where the login and register pages go once signed in. */
  function ReturnTo(from: Option<string>): (r: string)
    ensures r != ""
    ensures Truthy(from) ==> r == from.value
  {
    OrElse(from, "/")
  }

  /** A visitor turned away from a page comes back to exactly that page, query and fragment included. */
  lemma RedirectComesBack(loc: Location, isAuthed: bool)
    requires loc.pathname != ""
    requires Decide(false, isAuthed, loc).RedirectToLogin?
    ensures ReturnTo(Some(Decide(false, isAuthed, loc).from)) == loc.pathname + loc.search + loc.hash
  {
    assert |FromPath(loc)| > 0;
  }
}
