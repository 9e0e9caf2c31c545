// The session middleware's routing decision: which paths need a signed-in
// user, and where a request is redirected.
module Middleware {
  import opened Basics

  /** The paths a signed-out visitor may open, each with everything below it. */
  const PublicRoutes: seq<string> := ["/login", "/auth/callback", "/api/geocode"]

  /** `publicRoutes.some((route) => path.startsWith(route))`. */
  function StartsWithAny(path: string, routes: seq<string>): bool {
    if routes == [] then false else StartsWith(path, routes[0]) || StartsWithAny(path, routes[1..])
  }

  predicate IsPublicRoute(path: string) {
    StartsWithAny(path, PublicRoutes)
  }

  // ---------------------------------------------------------------------------
  // URLs and their query parameters
  // ---------------------------------------------------------------------------

  /** A request URL: scheme and host, path, and the query parameters in order. */
  datatype Url = Url(origin: string, pathname: string, params: seq<(string, string)>)

  /** `searchParams.get(key)`: the first value given to `key`. */
  function GetParam(params: seq<(string, string)>, key: string): Option<string> {
    if params == [] then None
    else if params[0].0 == key then Some(params[0].1)
    else GetParam(params[1..], key)
  }

  /** `searchParams.delete(key)`: every pair with that key is removed. */
  function DeleteParam(params: seq<(string, string)>, key: string): seq<(string, string)> {
    if params == [] then []
    else (if params[0].0 == key then [] else [params[0]]) + DeleteParam(params[1..], key)
  }

  /** `searchParams.set(key, value)`: the first pair with `key` takes the value and later ones go; with none, the pair is appended. */
  function SetParam(params: seq<(string, string)>, key: string, value: string): seq<(string, string)> {
    if params == [] then [(key, value)]
    else if params[0].0 == key then [(key, value)] + DeleteParam(params[1..], key)
    else [params[0]] + SetParam(params[1..], key, value)
  }

  // ---------------------------------------------------------------------------
  // Assigning a path: the URL pathname setter of the WHATWG URL Standard
  // (section 4.4, path start state and path state) for an http(s) URL
  // ---------------------------------------------------------------------------

  /** ASCII tab, line feed and carriage return, which the URL parser removes from its input before anything else. */
  predicate IsTabOrNewline(c: char) {
    c == '\t' || c == '\n' || c == '\r'
  }

  /** The value with every tab and newline removed. */
  function StripTabsAndNewlines(s: string): string {
    if s == [] then [] else (if IsTabOrNewline(s[0]) then [] else [s[0]]) + StripTabsAndNewlines(s[1..])
  }

  /** Stripping keeps, in order, exactly the characters that are no tab or newline. */
  lemma {:induction false} StripIsFilter(s: string)
    ensures StripTabsAndNewlines(s) == Filter(s, (c: char) => !IsTabOrNewline(c))
  {
    if s != [] {
      StripIsFilter(s[1..]);
    }
  }

  lemma {:induction false} StripConcat(a: string, b: string)
    ensures StripTabsAndNewlines(a + b) == StripTabsAndNewlines(a) + StripTabsAndNewlines(b)
  {
    if a == [] {
      assert a + b == b;
    } else {
      assert (a + b)[0] == a[0] && (a + b)[1..] == a[1..] + b;
      StripConcat(a[1..], b);
    }
  }

  lemma {:induction false} StripClean(s: string)
    requires forall i :: 0 <= i < |s| ==> !IsTabOrNewline(s[i])
    ensures StripTabsAndNewlines(s) == s
  {
    if s != [] {
      StripClean(s[1..]);
    }
  }

  lemma {:induction false} StripLeavesNone(s: string)
    ensures forall i :: 0 <= i < |StripTabsAndNewlines(s)| ==> !IsTabOrNewline(StripTabsAndNewlines(s)[i])
    ensures forall i :: 0 <= i < |StripTabsAndNewlines(s)| ==> StripTabsAndNewlines(s)[i] in s
  {
    if s != [] {
      StripLeavesNone(s[1..]);
      var head := if IsTabOrNewline(s[0]) then [] else [s[0]];
      var r := StripTabsAndNewlines(s[1..]);
      assert StripTabsAndNewlines(s) == head + r;
      forall i | 0 <= i < |head + r| ensures (head + r)[i] in s {
        if i >= |head| {
          assert (head + r)[i] == r[i - |head|];
          assert r[i - |head|] in s[1..];
        }
      }
    }
  }

  /** In a special (http, https) URL both slashes end a path segment. */
  predicate IsSlash(c: char) {
    c == '/' || c == '\\'
  }

  /** ".", or its percent-encoded spelling in either case. */
  predicate IsSingleDot(b: string) {
    b == "." || ToLower(b) == "%2e"
  }

  /** "..", with either dot possibly percent-encoded. */
  predicate IsDoubleDot(b: string) {
    b == ".." || ToLower(b) == ".%2e" || ToLower(b) == "%2e." || ToLower(b) == "%2e%2e"
  }

  /** Removing the last path segment, if there is one. */
  function Shorten(path: seq<string>): seq<string> {
    if path == [] then [] else path[..|path| - 1]
  }

  /** Ends the segment in `buffer`: ".." removes the previous segment, "." is dropped, anything else is kept; a dot segment at the very end leaves an empty last segment. */
  function EndSegment(buffer: string, path: seq<string>, atEnd: bool): seq<string> {
    if IsDoubleDot(buffer) then Shorten(path) + (if atEnd then [""] else [])
    else if IsSingleDot(buffer) then path + (if atEnd then [""] else [])
    else path + [buffer]
  }

  /** The path state: characters gather in `buffer` and each slash, and the end, closes a segment. */
  function PathState(input: string, buffer: string, path: seq<string>): (r: seq<string>)
    ensures r != []
    decreases |input|
  {
    if input == [] then EndSegment(buffer, path, true)
    else if IsSlash(input[0]) then PathState(input[1..], "", EndSegment(buffer, path, false))
    else PathState(input[1..], buffer + [input[0]], path)
  }

  /** A path list written out: each segment after a "/". */
  function Serialize(path: seq<string>): string {
    if path == [] then "" else "/" + path[0] + Serialize(path[1..])
  }

  /** `url.pathname = value`: tabs and newlines are removed, one leading slash is skipped, then the segments are parsed and written back. */
  function SetPathname(value: string): string {
    ParsePath(StripTabsAndNewlines(value))
  }

  /** The path start state skips one leading slash; the path state reads the rest. */
  function ParsePath(v: string): string {
    var rest := if v != [] && IsSlash(v[0]) then v[1..] else v;
    Serialize(PathState(rest, "", []))
  }

  /** Assigning a path to a URL. */
  function WithPathname(u: Url, path: string): Url {
    u.(pathname := SetPathname(path))
  }

  /** Every segment of `input`, the first continuing `buffer`, is closed by "/" only and is no dot segment. */
  predicate PlainSegments(input: string, buffer: string)
    decreases |input|
  {
    if input == [] then !IsSingleDot(buffer) && !IsDoubleDot(buffer)
    else if input[0] == '/' then !IsSingleDot(buffer) && !IsDoubleDot(buffer) && PlainSegments(input[1..], "")
    else input[0] != '\\' && PlainSegments(input[1..], buffer + [input[0]])
  }

  /** A path the setter keeps as it is: a leading "/", forward slashes only, no tab or newline, and no dot segments. */
  predicate PlainPath(value: string) {
    StartsWith(value, "/") && (forall i :: 0 <= i < |value| ==> !IsTabOrNewline(value[i])) && PlainSegments(value[1..], "")
  }

  lemma {:induction false} SerializeSnoc(path: seq<string>, x: string)
    ensures Serialize(path + [x]) == Serialize(path) + "/" + x
  {
    if path != [] {
      assert (path + [x])[1..] == path[1..] + [x];
      SerializeSnoc(path[1..], x);
    }
  }

  lemma {:induction false} PlainSegmentsSerialize(input: string, buffer: string, path: seq<string>)
    requires PlainSegments(input, buffer)
    ensures Serialize(PathState(input, buffer, path)) == Serialize(path) + "/" + buffer + input
    decreases |input|
  {
    if input == [] {
      SerializeSnoc(path, buffer);
    } else if input[0] == '/' {
      PlainSegmentsSerialize(input[1..], "", path + [buffer]);
      SerializeSnoc(path, buffer);
      assert input == "/" + input[1..];
    } else {
      PlainSegmentsSerialize(input[1..], buffer + [input[0]], path);
      assert buffer + input == buffer + [input[0]] + input[1..];
    }
  }

  /** The setter leaves a plain path unchanged. */
  lemma SetPlainPathname(value: string)
    requires PlainPath(value)
    ensures SetPathname(value) == value
  {
    StripClean(value);
    PlainSegmentsSerialize(value[1..], "", []);
    assert value == "/" + value[1..];
  }

  /** Tabs and newlines in the assigned value make no difference. */
  lemma TabsAndNewlinesIgnored(value: string)
    ensures SetPathname(value) == SetPathname(StripTabsAndNewlines(value))
  {
    StripLeavesNone(value);
    StripClean(StripTabsAndNewlines(value));
  }

  /** Whatever is assigned, the path starts with "/". */
  lemma SetPathnameStartsWithSlash(value: string)
    ensures StartsWith(SetPathname(value), "/")
  {
  }

  /** A dot segment, in any spelling, begins with "." or "%". */
  lemma DotSegmentFirstChar(b: string)
    requires IsSingleDot(b) || IsDoubleDot(b)
    ensures b != [] && (b[0] == '.' || b[0] == '%')
  {
    if b != "." && b != ".." {
      assert ToLower(b)[0] == LowerChar(b[0]);
    }
  }

  /** A slash-separated text with no ".", "%" or backslash is a plain path. */
  lemma {:induction false} PlainWithoutDots(input: string, buffer: string)
    requires buffer == [] || (buffer[0] != '.' && buffer[0] != '%')
    requires forall i :: 0 <= i < |input| ==> input[i] != '.' && input[i] != '%' && input[i] != '\\'
    ensures PlainSegments(input, buffer)
    decreases |input|
  {
    if IsSingleDot(buffer) || IsDoubleDot(buffer) {
      DotSegmentFirstChar(buffer);
    }
    if input != [] {
      var next := if input[0] == '/' then "" else buffer + [input[0]];
      PlainWithoutDots(input[1..], next);
    }
  }

  /** Characters up to the next slash only gather in the buffer. */
  lemma {:induction false} GatherSegment(seg: string, tail: string, buffer: string, path: seq<string>)
    requires forall i :: 0 <= i < |seg| ==> !IsSlash(seg[i])
    ensures PathState(seg + tail, buffer, path) == PathState(tail, buffer + seg, path)
    decreases |seg|
  {
    if seg != [] {
      assert !IsSlash(seg[0]);
      assert forall i :: 0 <= i < |seg[1..]| ==> seg[1..][i] == seg[i + 1];
      assert (seg + tail)[0] == seg[0] && (seg + tail)[1..] == seg[1..] + tail;
      GatherSegment(seg[1..], tail, buffer + [seg[0]], path);
      assert buffer + [seg[0]] + seg[1..] == buffer + seg;
    } else {
      assert seg + tail == tail && buffer + seg == buffer;
    }
  }

  /** One step of the path state on a leading slash. */
  lemma SlashStep(tail: string, buffer: string, path: seq<string>)
    ensures PathState("/" + tail, buffer, path) == PathState(tail, "", EndSegment(buffer, path, false))
  {
    assert ("/" + tail)[1..] == tail;
  }

  /** In the path state, a segment followed by ".." disappears with it. */
  lemma PathStateDoubleDot(seg: string, rest: string)
    requires forall i :: 0 <= i < |seg| ==> !IsSlash(seg[i])
    requires !IsSingleDot(seg) && !IsDoubleDot(seg)
    ensures PathState(seg + "/../" + rest, "", []) == PathState(rest, "", [])
  {
    assert seg + "/../" + rest == seg + ("/" + (".." + ("/" + rest)));
    GatherSegment(seg, "/" + (".." + ("/" + rest)), "", []);
    assert "" + seg == seg;
    SlashStep(".." + ("/" + rest), seg, []);
    assert EndSegment(seg, [], false) == [seg];
    GatherSegment("..", "/" + rest, "", [seg]);
    assert "" + ".." == "..";
    SlashStep(rest, "..", [seg]);
    assert EndSegment("..", [seg], false) == [];
  }

  lemma StripKeepsNoSlash(seg: string)
    requires forall i :: 0 <= i < |seg| ==> !IsSlash(seg[i])
    ensures forall i :: 0 <= i < |StripTabsAndNewlines(seg)| ==> !IsSlash(StripTabsAndNewlines(seg)[i])
  {
    var s := StripTabsAndNewlines(seg);
    StripLeavesNone(seg);
    forall i | 0 <= i < |s| ensures !IsSlash(s[i]) {
      assert s[i] in seg;
    }
  }

  lemma ParseAfterSlash(w: string)
    ensures ParsePath("/" + w) == Serialize(PathState(w, "", []))
  {
    assert ("/" + w)[1..] == w;
  }

  lemma StripAfterSlash(rest: string)
    ensures StripTabsAndNewlines("/" + rest) == "/" + StripTabsAndNewlines(rest)
  {
    StripConcat("/", rest);
  }

  lemma StripAroundDoubleDot(seg: string, dots: string, rest: string)
    requires StripTabsAndNewlines(dots) == "/../"
    ensures StripTabsAndNewlines("/" + seg + dots + rest)
         == "/" + (StripTabsAndNewlines(seg) + "/../" + StripTabsAndNewlines(rest))
  {
    var x := "/" + seg;
    var y := x + dots;
    StripConcat(y, rest);
    StripConcat(x, dots);
    StripConcat("/", seg);
    ConcatAssoc3("/", StripTabsAndNewlines(seg), "/../", StripTabsAndNewlines(rest));
  }

  /** Dot segments are resolved: a segment followed by "..", written with any tabs and newlines in it, disappears with it (the segment is judged once tabs and newlines are gone). */
  lemma DoubleDotCancelsAcross(seg: string, dots: string, rest: string)
    requires forall i :: 0 <= i < |seg| ==> !IsSlash(seg[i])
    requires !IsSingleDot(StripTabsAndNewlines(seg)) && !IsDoubleDot(StripTabsAndNewlines(seg))
    requires StripTabsAndNewlines(dots) == "/../"
    ensures SetPathname("/" + seg + dots + rest) == SetPathname("/" + rest)
  {
    var s, r := StripTabsAndNewlines(seg), StripTabsAndNewlines(rest);
    StripAroundDoubleDot(seg, dots, rest);
    StripAfterSlash(rest);
    StripKeepsNoSlash(seg);
    ParseAfterSlash(s + "/../" + r);
    ParseAfterSlash(r);
    PathStateDoubleDot(s, r);
  }

  lemma StripPlainDots()
    ensures StripTabsAndNewlines("/../") == "/../"
  {
  }

  lemma StripSplitDots()
    ensures StripTabsAndNewlines("/.\n./") == "/../"
  {
  }

  lemma StripSegmentA()
    ensures StripTabsAndNewlines("a") == "a"
    ensures !IsSingleDot("a") && !IsDoubleDot("a")
  {
    if IsSingleDot("a") || IsDoubleDot("a") {
      DotSegmentFirstChar("a");
    }
  }

  /** Dot segments are resolved: a segment followed by ".." disappears with it (the segment is judged once tabs and newlines are gone). */
  lemma DoubleDotCancels(seg: string, rest: string)
    requires forall i :: 0 <= i < |seg| ==> !IsSlash(seg[i])
    requires !IsSingleDot(StripTabsAndNewlines(seg)) && !IsDoubleDot(StripTabsAndNewlines(seg))
    ensures SetPathname("/" + seg + "/../" + rest) == SetPathname("/" + rest)
  {
    StripPlainDots();
    DoubleDotCancelsAcross(seg, "/../", rest);
  }

  /** For example, "/a/../login" is assigned as "/login". */
  lemma DoubleDotExample()
    ensures SetPathname("/a/../login") == "/login"
  {
    assert SetPathname("/a/../login") == SetPathname("/login") by {
      StripSegmentA();
      DoubleDotCancels("a", "login");
      assert "/" + "a" + "/../" + "login" == "/a/../login";
    }
    FixedTargetsArePlain();
  }

  /** A newline inside a dot segment is removed first, so "/a/.\n./login" is assigned as "/login" too. */
  lemma NewlineInDotSegmentExample()
    ensures SetPathname("/a/.\n./login") == "/login"
  {
    assert SetPathname("/a/.\n./login") == SetPathname("/login") by {
      StripSegmentA();
      StripSplitDots();
      DoubleDotCancelsAcross("a", "/.\n./", "login");
      assert "/" + "a" + "/.\n./" + "login" == "/a/.\n./login";
    }
    FixedTargetsArePlain();
  }

  lemma {:induction false} GetAfterDelete(params: seq<(string, string)>, key: string, other: string)
    ensures GetParam(DeleteParam(params, key), key) == None
    ensures other != key ==> GetParam(DeleteParam(params, key), other) == GetParam(params, other)
    decreases |params|
  {
    if params != [] {
      GetAfterDelete(params[1..], key, other);
      var head := if params[0].0 == key then [] else [params[0]];
      var rest := DeleteParam(params[1..], key);
      assert DeleteParam(params, key) == head + rest;
      if head != [] {
        var r := head + rest;
        assert r != [] && r[0] == params[0] && r[1..] == rest;
        assert GetParam(r, key) == GetParam(rest, key);
        if other != key && params[0].0 != other {
          assert GetParam(r, other) == GetParam(rest, other);
        }
      } else {
        assert head + rest == rest;
      }
    }
  }

  /** After `set`, `get` of that key gives the new value and every other key reads as before. */
  lemma {:induction false} GetAfterSet(params: seq<(string, string)>, key: string, value: string, other: string)
    ensures GetParam(SetParam(params, key, value), key) == Some(value)
    ensures other != key ==> GetParam(SetParam(params, key, value), other) == GetParam(params, other)
    decreases |params|
  {
    if params != [] {
      if params[0].0 == key {
        GetAfterDelete(params[1..], key, other);
        var r := [(key, value)] + DeleteParam(params[1..], key);
        assert r[1..] == DeleteParam(params[1..], key);
      } else {
        GetAfterSet(params[1..], key, value, other);
        var r := [params[0]] + SetParam(params[1..], key, value);
        assert r[1..] == SetParam(params[1..], key, value);
      }
    }
  }

  // ---------------------------------------------------------------------------
  // The decision
  // ---------------------------------------------------------------------------

  /** The middleware's answer: let the request through, or redirect it. */
  datatype Response = PassThrough | Redirect(url: Url)

  /** `updateSession`, once the session lookup has said whether there is a user. */
  function UpdateSession(hasUser: bool, request: Url): Response {
    var path := request.pathname;
    if !hasUser && !IsPublicRoute(path) then
      Redirect(WithPathname(request, "/login").(params := SetParam(request.params, "redirectTo", path)))
    else if hasUser && path == "/login" then
      var target := GetParam(request.params, "redirectTo");
      var redirectTo := if target.Some? && target.value != "" then target.value else "/";
      Redirect(WithPathname(request, redirectTo).(params := DeleteParam(request.params, "redirectTo")))
    else
      PassThrough
  }

  // ---------------------------------------------------------------------------
  // Properties
  // ---------------------------------------------------------------------------

  /** A path is public exactly when it starts with one of the public routes. */
  lemma {:induction false} StartsWithAnySpec(path: string, routes: seq<string>)
    ensures StartsWithAny(path, routes) <==> exists i :: 0 <= i < |routes| && StartsWith(path, routes[i])
    decreases |routes|
  {
    if routes != [] {
      StartsWithAnySpec(path, routes[1..]);
      if exists i :: 0 <= i < |routes| && StartsWith(path, routes[i]) {
        var i :| 0 <= i < |routes| && StartsWith(path, routes[i]);
        if i > 0 {
          assert routes[1..][i - 1] == routes[i];
        }
      }
      if exists i :: 0 <= i < |routes[1..]| && StartsWith(path, routes[1..][i]) {
        var i :| 0 <= i < |routes[1..]| && StartsWith(path, routes[1..][i]);
        assert routes[i + 1] == routes[1..][i];
      }
    }
  }

  lemma IsPublicRouteSpec(path: string)
    ensures IsPublicRoute(path) <==>
              StartsWith(path, "/login") || StartsWith(path, "/auth/callback") || StartsWith(path, "/api/geocode")
  {
    StartsWithAnySpec(path, PublicRoutes);
    if StartsWith(path, "/auth/callback") {
      assert StartsWith(path, PublicRoutes[1]);
    }
    if StartsWith(path, "/api/geocode") {
      assert StartsWith(path, PublicRoutes[2]);
    }
  }

  /** The test is by prefix: paths below a public route, and paths that merely begin like one, are public too. */
  lemma PublicIsPrefixTest()
    ensures IsPublicRoute("/login") && IsPublicRoute("/auth/callback/google")
    ensures IsPublicRoute("/api/geocoder") && IsPublicRoute("/loginpage")
    ensures !IsPublicRoute("/") && !IsPublicRoute("/projects")
  {
    IsPublicRouteSpec("/login");
    IsPublicRouteSpec("/auth/callback/google");
    IsPublicRouteSpec("/api/geocoder");
    IsPublicRouteSpec("/loginpage");
    IsPublicRouteSpec("/");
    IsPublicRouteSpec("/projects");
    assert "/projects"[..6][1] != "/login"[1];
  }

  /** The two paths the middleware itself assigns are kept as written. */
  lemma FixedTargetsArePlain()
    ensures SetPathname("/login") == "/login" && SetPathname("/") == "/"
  {
    assert SetPathname("/login") == "/login" by {
      assert PlainPath("/login") by {
        PlainWithoutDots("login", "");
      }
      SetPlainPathname("/login");
    }
    assert SetPathname("/") == "/" by {
      assert PlainPath("/") by {
        PlainWithoutDots("", "");
      }
      SetPlainPathname("/");
    }
  }

  /** A signed-out visitor on a private path goes to the login page, which is told where they were going. */
  lemma SignedOutGoesToLogin(request: Url)
    requires !IsPublicRoute(request.pathname)
    ensures UpdateSession(false, request).Redirect?
    ensures var u := UpdateSession(false, request).url;
              u.pathname == "/login" && u.origin == request.origin
              && GetParam(u.params, "redirectTo") == Some(request.pathname)
  {
    GetAfterSet(request.params, "redirectTo", request.pathname, "redirectTo");
    FixedTargetsArePlain();
  }

  /**
   * A signed-in visitor on the login page goes to `redirectTo` (or home), on
   * the same site, without the parameter; the target is assigned through the
   * path setter, so a plain path is kept and dot segments are resolved.
   */
  lemma SignedInLeavesLogin(request: Url)
    requires request.pathname == "/login"
    ensures UpdateSession(true, request).Redirect?
    ensures var u := UpdateSession(true, request).url;
            var target := GetParam(request.params, "redirectTo");
              u.origin == request.origin
              && GetParam(u.params, "redirectTo") == None
              && StartsWith(u.pathname, "/")
              && (target.None? || target.value == "" ==> u.pathname == "/")
              && (target.Some? && target.value != "" ==> u.pathname == SetPathname(target.value))
              && (target.Some? && PlainPath(target.value) ==> u.pathname == target.value)
  {
    GetAfterDelete(request.params, "redirectTo", "redirectTo");
    FixedTargetsArePlain();
    var target := GetParam(request.params, "redirectTo");
    if target.Some? {
      SetPathnameStartsWithSlash(target.value);
      if PlainPath(target.value) {
        SetPlainPathname(target.value);
      }
    }
  }

  /** Every other request is let through: in particular a signed-out visitor on a public path, and a signed-in one anywhere but the login page. */
  lemma OthersPassThrough(hasUser: bool, request: Url)
    ensures UpdateSession(hasUser, request) == PassThrough <==>
              (hasUser && request.pathname != "/login") || (!hasUser && IsPublicRoute(request.pathname))
  {
    if !hasUser && !IsPublicRoute(request.pathname) {
      assert UpdateSession(hasUser, request).Redirect?;
    } else if hasUser && request.pathname == "/login" {
      IsPublicRouteSpec("/login");
    }
  }

  /** A redirect never leaves the site. */
  lemma RedirectsStayOnSite(hasUser: bool, request: Url)
    ensures UpdateSession(hasUser, request).Redirect? ==> UpdateSession(hasUser, request).url.origin == request.origin
  {
  }

  /** The login redirect of a signed-out visitor is let through: it does not loop. */
  lemma LoginRedirectIsFinal(request: Url)
    requires UpdateSession(false, request).Redirect?
    ensures UpdateSession(false, UpdateSession(false, request).url) == PassThrough
  {
    IsPublicRouteSpec("/login");
    FixedTargetsArePlain();
  }

  /** A signed-in visitor is let through after at most two redirects. */
  lemma SignedInSettlesWithinTwo(request: Url)
    ensures var r1 := UpdateSession(true, request);
              r1.PassThrough? || (
                var r2 := UpdateSession(true, r1.url);
                r2.PassThrough? || UpdateSession(true, r2.url).PassThrough?)
  {
    var r1 := UpdateSession(true, request);
    if r1.Redirect? {
      GetAfterDelete(request.params, "redirectTo", "redirectTo");
      FixedTargetsArePlain();
      var r2 := UpdateSession(true, r1.url);
      if r2.Redirect? {
        assert r2.url.pathname == "/";
      }
    }
  }
}
