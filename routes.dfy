/**
 * The router: the `authenticateToken` gate and the table that puts it in front
 * of every route but the two login routes.
 *
 * Verifying the session credential is an oracle `verify` that gives the
 * decoded claims, or nothing when the credential does not verify.
 */
module Routes {
  import opened Wrappers
  import opened Controllers

  // ---------------------------------------------------------------------------
  // The Authorization header
  // ---------------------------------------------------------------------------

  /** `s.split(' ')`: the fields between single spaces, empty fields kept. */
  function Split(s: string): (fields: seq<string>)
    ensures |fields| >= 1
    ensures forall i :: 0 <= i < |fields| ==> ' ' !in fields[i]
    ensures Join(fields) == s
  {
    if s == [] then [""]
    else
      var rest := Split(s[1..]);
      if s[0] == ' ' then
        assert s == " " + s[1..];
        [""] + rest
      else
        var first := [s[0]] + rest[0];
        assert Join([first] + rest[1..]) == [s[0]] + Join(rest) by {
          if |rest| > 1 {
            assert ([first] + rest[1..])[1..] == rest[1..];
          }
        }
        assert s == [s[0]] + s[1..];
        [first] + rest[1..]
  }

  /** The fields joined with single spaces. */
  function Join(fields: seq<string>): string
    requires |fields| >= 1
  {
    if |fields| == 1 then fields[0] else fields[0] + " " + Join(fields[1..])
  }

  /** A string without spaces is one field. */
  lemma {:induction false} SplitNoSpace(a: string)
    requires ' ' !in a
    ensures Split(a) == [a]
  {
    if a != [] {
      assert ' ' !in a[1..] by {
        forall i | 0 <= i < |a[1..]| ensures a[1..][i] != ' ' {
          assert a[1..][i] == a[i + 1];
        }
      }
      SplitNoSpace(a[1..]);
      assert a == [a[0]] + a[1..];
    }
  }

  /** The first space ends the first field. */
  lemma {:induction false} SplitAtFirstSpace(a: string, b: string)
    requires ' ' !in a
    ensures Split(a + " " + b) == [a] + Split(b)
  {
    if a == [] {
      assert a + " " + b == " " + b;
      assert (" " + b)[1..] == b;
    } else {
      var s := a + " " + b;
      assert s[0] == a[0] && s[1..] == a[1..] + " " + b;
      assert ' ' !in a[1..] by {
        forall i | 0 <= i < |a[1..]| ensures a[1..][i] != ' ' {
          assert a[1..][i] == a[i + 1];
        }
      }
      SplitAtFirstSpace(a[1..], b);
      assert [a[0]] + a[1..] == a;
    }
  }

  /** `Split` undoes `Join` on fields without spaces. */
  lemma {:induction false} SplitJoin(fields: seq<string>)
    requires |fields| >= 1
    requires forall i :: 0 <= i < |fields| ==> ' ' !in fields[i]
    ensures Split(Join(fields)) == fields
  {
    if |fields| == 1 {
      SplitNoSpace(fields[0]);
    } else {
      SplitJoin(fields[1..]);
      SplitAtFirstSpace(fields[0], Join(fields[1..]));
    }
  }

  /** `authHeader.split(' ')[1]`: the second field, `undefined` when there is
      none. The scheme word in the first field is never looked at. */
  function Token(header: string): (t: Option<string>)
    ensures t.None? <==> ' ' !in header
  {
    var fields := Split(header);
    if |fields| >= 2 then
      assert header[|fields[0]|] == ' ';
      Some(fields[1])
    else
      None
  }

  /** Whatever the first word, the token is what follows the first space, up
      to the next space or the end. */
  lemma {:induction false} TokenAfterScheme(scheme: string, rest: string)
    requires ' ' !in scheme
    ensures Token(scheme + " " + rest) == Some(Split(rest)[0])
  {
    SplitAtFirstSpace(scheme, rest);
    assert Split(scheme + " " + rest)[1] == Split(rest)[0];
  }

  /** So a header `scheme token` gives `token` ... */
  lemma TokenIsSecondField(scheme: string, token: string)
    requires ' ' !in scheme && ' ' !in token
    ensures Token(scheme + " " + token) == Some(token)
  {
    TokenAfterScheme(scheme, token);
    SplitNoSpace(token);
  }

  /** ... and the fields after it play no part. */
  lemma TokenIgnoresLaterFields(scheme: string, token: string, more: string)
    requires ' ' !in scheme && ' ' !in token
    ensures Token(scheme + " " + (token + " " + more)) == Some(token)
  {
    TokenAfterScheme(scheme, token + " " + more);
    SplitAtFirstSpace(token, more);
  }

  /** A header ending in its only space gives the empty token, which is not
      `null` and so is handed to `verify`. */
  lemma TrailingSpaceToken(scheme: string)
    requires ' ' !in scheme
    ensures Token(scheme + " ") == Some("")
  {
    assert scheme + " " == scheme + " " + "";
    SplitAtFirstSpace(scheme, "");
  }

  // ---------------------------------------------------------------------------
  // The gate
  // ---------------------------------------------------------------------------

  /** What the gate does: hand the request on with the decoded claims, or stop
      with a status, sent or merely set. */
  datatype GateDecision = Proceed(user: Session) | Halt(status: int, sent: bool)

  /** The decision `authenticateToken` takes on a request's Authorization header. */
  function Decide(authHeader: Option<string>, verify: string -> Option<Session>): (d: GateDecision)
    ensures d == Halt(403, false) <==> !Truthy(authHeader)
    ensures d == Halt(401, true) <==> Truthy(authHeader) && ' ' !in authHeader.value
    ensures d == Halt(403, true) <==>
      Truthy(authHeader) && ' ' in authHeader.value && verify(Token(authHeader.value).value).None?
    ensures d.Proceed? <==>
      Truthy(authHeader) && ' ' in authHeader.value && verify(Token(authHeader.value).value).Some?
    ensures d.Proceed? ==> d.user == verify(Token(authHeader.value).value).value
  {
    if !Truthy(authHeader) then Halt(403, false)
    else
      match Token(authHeader.value)
      case None => Halt(401, true)
      case Some(token) =>
        match verify(token)
        case None => Halt(403, true)
        case Some(user) => Proceed(user)
  }

  /** The request: its Authorization header and the claims the gate attaches. */
  class Request {
    const authorization: Option<string>
    var user: Option<Session>

    constructor (authorization: Option<string>)
      ensures this.authorization == authorization && user == None
    {
      this.authorization := authorization;
      user := None;
    }
  }

  /** The response: its status code and whether it has been sent. */
  class Response {
    var status: int
    var sent: bool

    constructor ()
      ensures status == 200 && !sent
    {
      status, sent := 200, false;
    }
  }

  /** The `next` continuation, counting how often it is called. */
  class Next {
    var calls: nat

    constructor ()
      ensures calls == 0
    {
      calls := 0;
    }
  }

  /** `authenticateToken`: without a header only the status 403 is set; without
      a second field 401 is sent; an unverifiable token gets 403 sent; a
      verified one sets `req.user` and calls `next` once. */
  method AuthenticateToken(req: Request, res: Response, next: Next, verify: string -> Option<Session>)
    modifies req, res, next
    ensures match Decide(req.authorization, verify)
      case Proceed(user) =>
        && req.user == Some(user) && next.calls == old(next.calls) + 1
        && res.status == old(res.status) && res.sent == old(res.sent)
      case Halt(status, sent) =>
        && req.user == old(req.user) && next.calls == old(next.calls)
        && res.status == status && res.sent == (old(res.sent) || sent)
  {
    var authHeader := req.authorization;
    if !Truthy(authHeader) {
      res.status := 403;
      return;
    }
    var token := Token(authHeader.value);
    if token.None? {
      res.status, res.sent := 401, true;
      return;
    }
    var user := verify(token.value);
    if user.None? {
      res.status, res.sent := 403, true;
      return;
    }
    req.user := user;
    next.calls := next.calls + 1;
  }

  // ---------------------------------------------------------------------------
  // The route table
  // ---------------------------------------------------------------------------

  datatype Verb = GET | POST

  /** A path segment of a route: literal text, or a parameter such as `:videoId`. */
  datatype Segment = Lit(text: string) | Param

  datatype Handler =
    | LoginLinkHandler | LoginCallbackHandler | ChannelHandler | SavedHandler
    | VideoHandler | RefreshListHandler | SaveHandler | RemoveHandler

  datatype Route = Route(verb: Verb, pattern: seq<Segment>, gated: bool, handler: Handler)

  /** The routes in the order they are registered. */
  const ROUTES: seq<Route> := [
    Route(GET, [Lit("login-link")], false, LoginLinkHandler),
    Route(GET, [Lit("login-callback")], false, LoginCallbackHandler),
    Route(GET, [Lit("channel")], true, ChannelHandler),
    Route(GET, [Lit("saved")], true, SavedHandler),
    Route(GET, [Lit("video"), Param], true, VideoHandler),
    Route(GET, [Lit("refresh-list")], true, RefreshListHandler),
    Route(POST, [Lit("save")], true, SaveHandler),
    Route(POST, [Lit("remove")], true, RemoveHandler)
  ]

  predicate IsLoginHandler(h: Handler)
  {
    h == LoginLinkHandler || h == LoginCallbackHandler
  }

  /** A path, given as its segments, matches a pattern segment by segment; a
      parameter takes any non-empty segment. */
  predicate Matches(pattern: seq<Segment>, path: seq<string>)
  {
    |pattern| == |path| &&
    forall i :: 0 <= i < |path| ==>
      match pattern[i]
      case Lit(text) => path[i] == text
      case Param => path[i] != ""
  }

  /** The first registered route for this verb and path. */
  function FindRoute(routes: seq<Route>, verb: Verb, path: seq<string>): (r: Option<Route>)
    ensures r.Some? ==> r.value in routes && r.value.verb == verb && Matches(r.value.pattern, path)
    ensures r.None? ==> forall x :: x in routes ==> !(x.verb == verb && Matches(x.pattern, path))
  {
    if routes == [] then None
    else if routes[0].verb == verb && Matches(routes[0].pattern, path) then Some(routes[0])
    else FindRoute(routes[1..], verb, path)
  }

  /** What the router does with a request: no route, stopped by the gate, or the
      handler run with the claims the gate attached (none on a public route). */
  datatype Dispatched = NotFound | Halted(status: int, sent: bool) | Run(handler: Handler, user: Option<Session>)

  function Dispatch(verb: Verb, path: seq<string>, authHeader: Option<string>,
                    verify: string -> Option<Session>): Dispatched
  {
    match FindRoute(ROUTES, verb, path)
    case None => NotFound
    case Some(route) =>
      if !route.gated then Run(route.handler, None)
      else
        match Decide(authHeader, verify)
        case Halt(status, sent) => Halted(status, sent)
        case Proceed(user) => Run(route.handler, Some(user))
  }

  /** Exactly the two login routes skip the gate. */
  lemma OnlyLoginRoutesUngated()
    ensures forall r :: r in ROUTES ==> (!r.gated <==> IsLoginHandler(r.handler))
    ensures |ROUTES| == 8
  {
  }

  /** A handler other than the two login handlers runs only after the gate let
      the request through, with the claims the gate decoded. */
  lemma GatedHandlersRunAfterGate(verb: Verb, path: seq<string>, authHeader: Option<string>,
                                  verify: string -> Option<Session>)
    ensures var d := Dispatch(verb, path, authHeader, verify);
      d.Run? && !IsLoginHandler(d.handler) ==>
        d.user.Some? && Decide(authHeader, verify) == Proceed(d.user.value)
    ensures var d := Dispatch(verb, path, authHeader, verify);
      d.Run? && IsLoginHandler(d.handler) ==> d.user.None?
  {
    OnlyLoginRoutesUngated();
  }

  /** Without an Authorization header nothing but a login handler runs: a
      guarded route stops at the gate with only its status set. */
  lemma WithoutHeaderOnlyLoginRuns(verb: Verb, path: seq<string>, verify: string -> Option<Session>)
    ensures var d := Dispatch(verb, path, None, verify);
      d.NotFound? || d == Halted(403, false) || (d.Run? && IsLoginHandler(d.handler))
  {
    OnlyLoginRoutesUngated();
  }

  /** The two login paths reach their handlers whatever the header. */
  lemma LoginPathsArePublic(authHeader: Option<string>, verify: string -> Option<Session>)
    ensures Dispatch(GET, ["login-link"], authHeader, verify) == Run(LoginLinkHandler, None)
    ensures Dispatch(GET, ["login-callback"], authHeader, verify) == Run(LoginCallbackHandler, None)
  {
    LoginLinkPath();
    LoginCallbackPath();
  }

  /** `/login-link` is the first route. */
  lemma LoginLinkPath()
    ensures FindRoute(ROUTES, GET, ["login-link"]) == Some(ROUTES[0])
  {
    FindsFirstMatch(ROUTES, GET, ["login-link"], 0);
  }

  /** `/login-callback` is the second: the first does not match it. */
  lemma LoginCallbackPath()
    ensures FindRoute(ROUTES, GET, ["login-callback"]) == Some(ROUTES[1])
  {
    var p := ["login-callback"];
    assert |p[0]| == 14;
    assert !Matches(ROUTES[0].pattern, p) by { assert |ROUTES[0].pattern[0].text| == 10; }
    FindsFirstMatch(ROUTES, GET, p, 1);
  }

  /** The route found is the first registered one that matches. */
  lemma {:induction false} FindsFirstMatch(routes: seq<Route>, verb: Verb, path: seq<string>, k: nat)
    requires k < |routes| && routes[k].verb == verb && Matches(routes[k].pattern, path)
    requires forall j :: 0 <= j < k ==> !(routes[j].verb == verb && Matches(routes[j].pattern, path))
    ensures FindRoute(routes, verb, path) == Some(routes[k])
  {
    if k > 0 {
      assert !(routes[0].verb == verb && Matches(routes[0].pattern, path));
      FindsFirstMatch(routes[1..], verb, path, k - 1);
    }
  }

  /** The six guarded paths find their guarded routes. */
  lemma GuardedPathsFindTheirRoutes(videoId: string)
    requires videoId != ""
    ensures FindRoute(ROUTES, GET, ["channel"]) == Some(ROUTES[2])
    ensures FindRoute(ROUTES, GET, ["saved"]) == Some(ROUTES[3])
    ensures FindRoute(ROUTES, GET, ["video", videoId]) == Some(ROUTES[4])
    ensures FindRoute(ROUTES, GET, ["refresh-list"]) == Some(ROUTES[5])
    ensures FindRoute(ROUTES, POST, ["save"]) == Some(ROUTES[6])
    ensures FindRoute(ROUTES, POST, ["remove"]) == Some(ROUTES[7])
  {
    ChannelPath();
    SavedPath();
    VideoPath(videoId);
    RefreshPath();
    SavePath();
    RemovePath();
  }

  lemma VideoPath(videoId: string)
    requires videoId != ""
    ensures FindRoute(ROUTES, GET, ["video", videoId]) == Some(ROUTES[4])
  {
    FindsFirstMatch(ROUTES, GET, ["video", videoId], 4);
  }

  lemma SavePath()
    ensures FindRoute(ROUTES, POST, ["save"]) == Some(ROUTES[6])
  {
    FindsFirstMatch(ROUTES, POST, ["save"], 6);
  }

  lemma ChannelPath()
    ensures FindRoute(ROUTES, GET, ["channel"]) == Some(ROUTES[2])
  {
    var p := ["channel"];
    assert |p[0]| == 7;
    assert !Matches(ROUTES[0].pattern, p) by { assert |ROUTES[0].pattern[0].text| == 10; }
    assert !Matches(ROUTES[1].pattern, p) by { assert |ROUTES[1].pattern[0].text| == 14; }
    FindsFirstMatch(ROUTES, GET, p, 2);
  }

  lemma SavedPath()
    ensures FindRoute(ROUTES, GET, ["saved"]) == Some(ROUTES[3])
  {
    var p := ["saved"];
    assert |p[0]| == 5;
    assert !Matches(ROUTES[0].pattern, p) by { assert |ROUTES[0].pattern[0].text| == 10; }
    assert !Matches(ROUTES[1].pattern, p) by { assert |ROUTES[1].pattern[0].text| == 14; }
    assert !Matches(ROUTES[2].pattern, p) by { assert |ROUTES[2].pattern[0].text| == 7; }
    FindsFirstMatch(ROUTES, GET, p, 3);
  }

  lemma RefreshPath()
    ensures FindRoute(ROUTES, GET, ["refresh-list"]) == Some(ROUTES[5])
  {
    var p := ["refresh-list"];
    assert |p[0]| == 12;
    assert !Matches(ROUTES[0].pattern, p) by { assert |ROUTES[0].pattern[0].text| == 10; }
    assert !Matches(ROUTES[1].pattern, p) by { assert |ROUTES[1].pattern[0].text| == 14; }
    assert !Matches(ROUTES[2].pattern, p) by { assert |ROUTES[2].pattern[0].text| == 7; }
    assert !Matches(ROUTES[3].pattern, p) by { assert |ROUTES[3].pattern[0].text| == 5; }
    FindsFirstMatch(ROUTES, GET, p, 5);
  }

  lemma RemovePath()
    ensures FindRoute(ROUTES, POST, ["remove"]) == Some(ROUTES[7])
  {
    var p := ["remove"];
    assert |p[0]| == 6;
    assert !Matches(ROUTES[6].pattern, p) by { assert |ROUTES[6].pattern[0].text| == 4; }
    FindsFirstMatch(ROUTES, POST, p, 7);
  }
}
