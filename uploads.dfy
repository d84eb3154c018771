// The photo and avatar URL resolvers. Three pages (src/pages/PetDetails.jsx,
// src/pages/EditPet.jsx, src/pages/Profile.jsx) derive the host from the api
// base URL, src/pages/MyListings.jsx from a configured origin, and
// src/components/PetCard.jsx classifies paths with one case fewer.

module Uploads {
  import opened Js

  /** `base.replace(/\/api\/?$/, "")`. */
  function StripApiSuffix(base: string): (r: string)
    ensures EndsWith(base, "/api/") ==> r + "/api/" == base
    ensures !EndsWith(base, "/api/") && EndsWith(base, "/api") ==> r + "/api" == base
    ensures !EndsWith(base, "/api/") && !EndsWith(base, "/api") ==> r == base
  {
    if EndsWith(base, "/api/") then base[..|base| - 5]
    else if EndsWith(base, "/api") then base[..|base| - 4]
    else base
  }

  /** `s.replace(/\/+$/, "")`. */
  function StripTrailingSlashes(s: string): (r: string)
    ensures |r| <= |s| && r == s[..|r|]
    ensures r == [] || r[|r| - 1] != '/'
    ensures forall i :: |r| <= i < |s| ==> s[i] == '/'
  {
    if s != [] && s[|s| - 1] == '/' then StripTrailingSlashes(s[..|s| - 1]) else s
  }

  /** `s.replace(/^\/+/, "")`. */
  function StripLeadingSlashes(s: string): (r: string)
    ensures |r| <= |s| && r == s[|s| - |r|..]
    ensures r == [] || r[0] != '/'
    ensures forall i :: 0 <= i < |s| - |r| ==> s[i] == '/'
  {
    if s != [] && s[0] == '/' then
      var r := StripLeadingSlashes(s[1..]);
      assert s[1..][|s| - 1 - |r|..] == s[|s| - |r|..];
      assert forall i :: 1 <= i < |s| - |r| ==> s[i] == s[1..][i - 1];
      r
    else s
  }

  /** Values the resolvers hand back untouched: http(s) URLs, in any case, and data URLs. */
  predicate IsAbsolutePhoto(s: string) {
    IsHttpUrl(s) || StartsWith(s, "data:")
  }

  /** The four spellings of an uploaded file's path, each rewritten to a path under "/uploads/". */
  function UploadsPath(s: string): (r: string)
    ensures StartsWith(r, "/uploads/")
  {
    if StartsWith(s, "/api/uploads/") then
      assert s[4..][..9] == s[..13][4..];
      s[4..]
    else if StartsWith(s, "/uploads/") then s
    else if StartsWith(s, "uploads/") then "/" + s
    else "/uploads/" + StripLeadingSlashes(s)
  }

  /** The path placed on a host. */
  function UnderUploads(s: string, host: string): (r: string)
    ensures StartsWith(r, host + "/uploads/")
  {
    var p := UploadsPath(s);
    assert (host + p)[..|host| + 9] == host + p[..9];
    host + p
  }

  /** The shared body of the four-case resolvers: None for a missing or blank value. */
  function ResolveWith(raw: Option<string>, host: string): (r: Option<string>)
    ensures r.None? <==> Trim(Str(raw)) == ""
    ensures r.Some? && IsAbsolutePhoto(Trim(raw.value)) ==> r == Some(Trim(raw.value))
    ensures r.Some? && !IsAbsolutePhoto(Trim(raw.value)) ==> StartsWith(r.value, host + "/uploads/")
  {
    if !Truthy(raw) then None
    else
      var s := Trim(raw.value);
      if s == "" then None
      else if IsAbsolutePhoto(s) then Some(s)
      else Some(UnderUploads(s, host))
  }

  /** `resolvePhoto` of PetDetails and EditPet, and `resolveAvatar` of Profile: the host is the api base less "/api". */
  function ResolveAgainstApiBase(raw: Option<string>, baseURL: string): (r: Option<string>)
    ensures r.None? <==> Trim(Str(raw)) == ""
    ensures r.Some? && IsAbsolutePhoto(Trim(raw.value)) ==> r == Some(Trim(raw.value))
    ensures r.Some? && !IsAbsolutePhoto(Trim(raw.value)) ==> StartsWith(r.value, StripApiSuffix(baseURL) + "/uploads/")
  {
    ResolveWith(raw, StripApiSuffix(baseURL))
  }

  /** `resolvePhoto(raw, apiOrigin)` of MyListings: the host is the origin less its trailing slashes. */
  function ResolveAgainstOrigin(raw: Option<string>, origin: string): (r: Option<string>)
    ensures r.None? <==> Trim(Str(raw)) == ""
    ensures r.Some? && IsAbsolutePhoto(Trim(raw.value)) ==> r == Some(Trim(raw.value))
    ensures r.Some? && !IsAbsolutePhoto(Trim(raw.value)) ==> StartsWith(r.value, StripTrailingSlashes(origin) + "/uploads/")
  {
    ResolveWith(raw, StripTrailingSlashes(origin))
  }

  /** PetCard's path normalisation, which knows no "/api/uploads/" spelling. */
  function CardPath(s: string): (r: string)
    ensures StartsWith(r, "/uploads/")
  {
    var path := if StartsWith(s, "/uploads/") then s else if StartsWith(s, "uploads/") then "/" + s else s;
    if StartsWith(path, "/uploads/") then path else "/uploads/" + StripLeadingSlashes(path)
  }

  /** `resolvePhoto(raw, apiOrigin)` of PetCard: the host is the origin less its trailing slashes. */
  function ResolveForCard(raw: Option<string>, origin: string): (r: Option<string>)
    ensures r.None? <==> Trim(Str(raw)) == ""
    ensures r.Some? && IsAbsolutePhoto(Trim(raw.value)) ==> r == Some(Trim(raw.value))
    ensures r.Some? && !IsAbsolutePhoto(Trim(raw.value)) ==>
              StartsWith(r.value, StripTrailingSlashes(origin) + "/uploads/")
  {
    if !Truthy(raw) then None
    else
      var s := Trim(raw.value);
      if s == "" then None
      else if IsAbsolutePhoto(s) then Some(s)
      else
        var host := StripTrailingSlashes(origin);
        var p := CardPath(s);
        assert (host + p)[..|host| + 9] == host + p[..9];
        Some(host + p)
  }

  /** The three explicit spellings of an uploaded file name the same path. */
  lemma UploadSpellingsAgree(name: string)
    ensures UploadsPath("/api/uploads/" + name) == "/uploads/" + name
    ensures UploadsPath("/uploads/" + name) == "/uploads/" + name
    ensures UploadsPath("uploads/" + name) == "/uploads/" + name
  {
    ApiSpelling(name);
    RootSpelling(name);
    RelativeSpelling(name);
  }

  lemma ApiSpelling(name: string)
    ensures UploadsPath("/api/uploads/" + name) == "/uploads/" + name
  {
    var a := "/api/uploads/" + name;
    assert a[..13] == "/api/uploads/";
    assert a[4..] == "/uploads/" + name;
  }

  lemma RootSpelling(name: string)
    ensures UploadsPath("/uploads/" + name) == "/uploads/" + name
  {
    var b := "/uploads/" + name;
    assert b[..9] == "/uploads/";
    assert !StartsWith(b, "/api/uploads/") by { assert b[1] == 'u'; }
  }

  lemma RelativeSpelling(name: string)
    ensures UploadsPath("uploads/" + name) == "/uploads/" + name
  {
    var c := "uploads/" + name;
    assert c[0] == 'u';
    assert !StartsWith(c, "/api/uploads/");
    assert !StartsWith(c, "/uploads/");
    assert StartsWith(c, "uploads/") by { assert c[..8] == "uploads/"; }
    assert "/" + c == "/uploads/" + name;
  }

  /** A bare file name with no slash in front goes under "/uploads/" as it is. */
  lemma BareNameGoesUnderUploads(name: string)
    requires name != [] && name[0] != '/' && !StartsWith(name, "uploads/")
    ensures UploadsPath(name) == "/uploads/" + name
  {
  }

  /** With a base URL of `origin + "/api"`, the api-base resolvers and the MyListings resolver agree. */
  lemma ApiBaseAndOriginAgree(raw: Option<string>, origin: string)
    requires origin == [] || origin[|origin| - 1] != '/'
    ensures ResolveAgainstApiBase(raw, origin + "/api") == ResolveAgainstOrigin(raw, origin)
  {
    var base := origin + "/api";
    assert EndsWith(base, "/api") && base[..|base| - 4] == origin;
    assert !EndsWith(base, "/api/") by {
      assert base[|base| - 1] == 'i';
    }
    assert StripTrailingSlashes(origin) == origin;
  }

  /** The card's path differs on the "/api/uploads/" spelling: the "/api" survives under "/uploads/",
      where the shared path drops it. */
  lemma CardPathKeepsApiPrefix(s: string)
    requires StartsWith(s, "/api/uploads/")
    ensures CardPath(s) == "/uploads/" + s[1..]
    ensures UploadsPath(s) == s[4..]
    ensures CardPath(s) != UploadsPath(s)
  {
    CardPathOfApiSpelling(s);
    UploadsPathOfApiSpelling(s);
    assert |CardPath(s)| != |UploadsPath(s)|;
  }

  lemma CardPathOfApiSpelling(s: string)
    requires StartsWith(s, "/api/uploads/")
    ensures CardPath(s) == "/uploads/" + s[1..]
  {
    assert !StartsWith(s, "/uploads/") by { assert s[1] == 'a'; }
    assert !StartsWith(s, "uploads/") by { assert s[0] == '/'; }
    assert s[0] == '/' && s[1] == 'a';
    StripOneLeadingSlash(s);
    CardPathOfPlain(s);
  }

  lemma StripOneLeadingSlash(s: string)
    requires |s| >= 2 && s[0] == '/' && s[1] != '/'
    ensures StripLeadingSlashes(s) == s[1..]
  {
    assert s[1..][0] == s[1];
  }

  lemma UploadsPathOfApiSpelling(s: string)
    requires StartsWith(s, "/api/uploads/")
    ensures UploadsPath(s) == s[4..]
  {
  }

  lemma CardPathOfPlain(s: string)
    requires !StartsWith(s, "/uploads/") && !StartsWith(s, "uploads/")
    ensures CardPath(s) == "/uploads/" + StripLeadingSlashes(s)
  {
  }

  /** Everywhere else the card's path is the shared one. */
  lemma CardPathAgreesOtherwise(s: string)
    requires !StartsWith(s, "/api/uploads/")
    ensures CardPath(s) == UploadsPath(s)
  {
    if !StartsWith(s, "/uploads/") && StartsWith(s, "uploads/") {
      assert ("/" + s)[..9] == "/" + s[..8];
    }
  }

  /** So the card resolver and the MyListings resolver agree except on "/api/uploads/" paths. */
  lemma CardResolverAgreesOtherwise(raw: Option<string>, origin: string)
    requires !(Truthy(raw) && StartsWith(Trim(raw.value), "/api/uploads/"))
    ensures ResolveForCard(raw, origin) == ResolveAgainstOrigin(raw, origin)
  {
    if Truthy(raw) {
      CardPathAgreesOtherwise(Trim(raw.value));
    }
  }

  /** A resolved URL resolves to itself again when the host is empty. */
  lemma ResolveIdempotentOnEmptyHost(raw: Option<string>)
    ensures ResolveWith(raw, "").Some? ==> ResolveWith(ResolveWith(raw, ""), "") == ResolveWith(raw, "")
  {
    var r := ResolveWith(raw, "");
    if r.Some? {
      var s := Trim(raw.value);
      TrimIsSlice(raw.value);
      if IsAbsolutePhoto(s) {
        TrimIdempotent(raw.value);
      } else {
        RelativeResolutionStable(s);
      }
    }
  }

  lemma RelativeResolutionStable(s: string)
    requires s != [] && !IsSpace(s[|s| - 1]) && !IsAbsolutePhoto(s)
    ensures ResolveWith(Some(UnderUploads(s, "")), "") == Some(UnderUploads(s, ""))
  {
    assert UnderUploads(s, "") == "" + UploadsPath(s) == UploadsPath(s);
    UploadsPathEnd(s);
    ResolvedPathStable(UploadsPath(s));
  }

  /** A path already under "/uploads/" is left as it is. */
  lemma UploadsPathFixed(u: string)
    requires StartsWith(u, "/uploads/")
    ensures UploadsPath(u) == u
  {
    assert !StartsWith(u, "/api/uploads/") by { assert u[1] == 'u'; }
  }

  /** A placed path under an empty host is a relative path the resolver keeps. */
  lemma ResolvedPathStable(u: string)
    requires StartsWith(u, "/uploads/") && !IsSpace(u[|u| - 1])
    ensures ResolveWith(Some(u), "") == Some(u)
  {
    assert u[0] == '/';
    assert Trimmed(u);
    TrimNoop(u);
    assert !IsHttpUrl(u) by { assert LowerChar(u[0]) == '/'; }
    assert !StartsWith(u, "data:") by { assert u[0] != 'd'; }
    UploadsPathFixed(u);
    assert "" + u == u;
  }

  /** The last character of a placed path is the path's own last character or a slash. */
  lemma UploadsPathEnd(s: string)
    requires s != [] && !IsSpace(s[|s| - 1])
    ensures !IsSpace(UploadsPath(s)[|UploadsPath(s)| - 1])
  {
    var u := UploadsPath(s);
    if StartsWith(s, "/api/uploads/") {
      assert u == s[4..] && u[|u| - 1] == s[|s| - 1];
    } else if StartsWith(s, "/uploads/") {
      assert u[|u| - 1] == s[|s| - 1];
    } else if StartsWith(s, "uploads/") {
      assert u[|u| - 1] == s[|s| - 1];
    } else {
      var t := StripLeadingSlashes(s);
      if t == [] {
        assert u[|u| - 1] == '/';
      } else {
        assert u[|u| - 1] == t[|t| - 1] == s[|s| - 1];
      }
    }
  }
}
