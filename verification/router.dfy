/** The front controller of the ledger back end (public/index.php): a pure
    dispatch from the request method and request URI to the handler that
    answers it. */
module Router {
  import opened Optional
  import opened Text
  import opened Url

  datatype Handler =
    | Preflight                        // OPTIONS: 200 with an empty body, before any routing
    | HealthCheck                      // {"status": "Tip Pool API is alive"}
    | CreateUser                       // UserController::create
    | WalletBalance(userId: nat)       // WalletController::balance
    | CreditWallet                     // WalletController::credit
    | SendTip                          // WalletController::tip
    | NotFound(verb: string, uri: string)  // 404 {"error": "Route not found", "method", "uri"}

  /** The largest integer PHP holds on a 64-bit build, PHP_INT_MAX. */
  const PhpIntMax: nat := 9_223_372_036_854_775_807

  /** The least value a double cannot hold: 2^1024 - 2^970 and above round
      to infinity. */
  const DoubleOverflow: nat := 179769313486231580793728971405303415079934132710037826936173778980444968292764750946649017977587207096330286416692887910946555547851940402630657488671505820681908902000708383676273854845817711531764475730270069855571366959622842914819860834936475292719074168444365510704342711559699508093042880177904174497792

  /** PHP's `(int)` cast of a string of digits whose value is `v`: exact up
      to PHP_INT_MAX. A longer number is read as a double, and the cast
      saturates at PHP_INT_MAX, except that a number too large for a double
      is infinity, which the cast turns into 0. */
  function IntCast(v: nat): (r: nat)
    ensures r <= PhpIntMax
  {
    if v <= PhpIntMax then v else if v < DoubleOverflow then PhpIntMax else 0
  }

  /** The string the route table is matched against: the path that
      `parse_url` finds, with every leading and trailing `/` removed. A
      refused URI (`false`) and a missing path (`null`) both trim to "". */
  function RoutePath(requestUri: string): (r: string)
    ensures r == [] || (r[0] != '/' && r[|r| - 1] != '/')
    ensures Printable(r) && '?' !in r && '#' !in r && |r| <= |requestUri|
  {
    match PathOf(requestUri)
    case Path(p) => Trim(p, {'/'})
    case _ => ""
  }

  /** `preg_match('#^wallets/(\d+)$#', $path)` and the `(int)` cast of the
      captured digits. PCRE's `$` without the D modifier also matches just
      before a final newline. */
  function MatchWallet(path: string): (m: Option<nat>)
    ensures m.Some? ==>
              && |path| > 8 && path[..8] == "wallets/"
              && (|| (IsDigits(path[8..]) && m.value == IntCast(ParseDigits(path[8..])))
                  || (|path| > 9 && path[|path| - 1] == '\n' && IsDigits(path[8..|path| - 1])
                      && m.value == IntCast(ParseDigits(path[8..|path| - 1]))))
  {
    if |path| > 8 && path[..8] == "wallets/" then
      var rest := path[8..];
      if IsDigits(rest) then Some(IntCast(ParseDigits(rest)))
      else if |rest| >= 2 && rest[|rest| - 1] == '\n' && IsDigits(rest[..|rest| - 1]) then
        assert rest[..|rest| - 1] == path[8..|path| - 1];
        Some(IntCast(ParseDigits(rest[..|rest| - 1])))
      else None
    else None
  }

  /** The routing chain of index.php, in its order. */
  function Route(verb: string, requestUri: string): (h: Handler)
    ensures verb == "OPTIONS" ==> h == Preflight
    ensures verb != "OPTIONS" ==> (h == HealthCheck <==> RoutePath(requestUri) == "")
    ensures h == CreateUser <==> verb == "POST" && RoutePath(requestUri) == "users"
    ensures h == CreditWallet <==> verb == "POST" && RoutePath(requestUri) == "wallets/credit"
    ensures h == SendTip <==> verb == "POST" && RoutePath(requestUri) == "tips"
    ensures h.WalletBalance? <==> verb == "GET" && MatchWallet(RoutePath(requestUri)).Some?
    ensures h.WalletBalance? ==> h.userId == MatchWallet(RoutePath(requestUri)).value
    ensures h.NotFound? ==> h == NotFound(verb, "/" + RoutePath(requestUri))
  {
    if verb == "OPTIONS" then Preflight
    else
      var path := RoutePath(requestUri);
      if path == "" then HealthCheck
      else if verb == "POST" && path == "users" then CreateUser
      else if verb == "GET" && MatchWallet(path).Some? then WalletBalance(MatchWallet(path).value)
      else if verb == "POST" && path == "wallets/credit" then CreditWallet
      else if verb == "POST" && path == "tips" then SendTip
      else NotFound(verb, "/" + path)
  }

  /** A path with neither `:` nor a query or fragment mark, that does not
      start with `//`. */
  predicate PlainRequestPath(path: string)
  {
    ':' !in path && '?' !in path && '#' !in path && !(|path| >= 2 && path[0] == '/' && path[1] == '/')
  }

  /** The query string and fragment never influence the route of a plain
      path. */
  lemma RouteIgnoresQuery(verb: string, path: string, query: string)
    requires PlainRequestPath(path)
    ensures Route(verb, path + "?" + query) == Route(verb, path)
  {
    assert path + "?" + query == path + ("?" + query);
    PlainPath(path, "?" + query);
    PlainPath(path, []);
    assert path + [] == path;
  }

  /** Trailing slashes, and one leading slash, never influence the route. */
  lemma RouteIgnoresSlashes(verb: string, pre: string, path: string, post: string)
    requires |pre| <= 1 && forall k | 0 <= k < |pre| :: pre[k] == '/'
    requires forall k | 0 <= k < |post| :: post[k] == '/'
    requires ':' !in path && '?' !in path && '#' !in path && path != [] && path[0] != '/'
    ensures Route(verb, pre + path + post) == Route(verb, path)
  {
    SlashedPlain(pre, path, post);
    RoutePathPlain(pre + path + post);
    RoutePathPlain(path);
    TrimSanitizedSlashes(pre, path, post);
  }

  lemma TrimSanitizedSlashes(pre: string, path: string, post: string)
    requires forall k | 0 <= k < |pre| :: pre[k] == '/'
    requires forall k | 0 <= k < |post| :: post[k] == '/'
    ensures Trim(Sanitize(pre + path + post), {'/'}) == Trim(Sanitize(path), {'/'})
  {
    SanitizeSlashes(pre, path, post);
    TrimPadded(pre, Sanitize(path), post, {'/'});
  }

  /** The route path of a plain request path. */
  lemma RoutePathPlain(path: string)
    requires PlainRequestPath(path)
    ensures RoutePath(path) == Trim(Sanitize(path), {'/'})
  {
    PlainPath(path, []);
    assert path + [] == path;
  }

  lemma SlashedPlain(pre: string, path: string, post: string)
    requires |pre| <= 1 && forall k | 0 <= k < |pre| :: pre[k] == '/'
    requires forall k | 0 <= k < |post| :: post[k] == '/'
    requires ':' !in path && '?' !in path && '#' !in path && path != [] && path[0] != '/'
    ensures PlainRequestPath(pre + path + post) && PlainRequestPath(path)
  {
    var uri := pre + path + post;
    forall k | 0 <= k < |uri| ensures uri[k] == '/' || uri[k] in path {
      if |pre| <= k < |pre| + |path| {
        assert uri[k] == path[k - |pre|];
      }
    }
    assert uri[|pre|] == path[0];
  }

  /** Slashes are not control characters. */
  lemma SanitizeSlashes(pre: string, path: string, post: string)
    requires forall k | 0 <= k < |pre| :: pre[k] == '/'
    requires forall k | 0 <= k < |post| :: post[k] == '/'
    ensures Sanitize(pre + path + post) == pre + Sanitize(path) + post
  {
    var uri := pre + path + post;
    var r := pre + Sanitize(path) + post;
    forall k | 0 <= k < |uri| ensures Sanitize(uri)[k] == r[k] {
      if |pre| <= k < |pre| + |path| {
        assert uri[k] == path[k - |pre|];
      }
    }
  }

  /** A request URI that starts with `//` and a host is a network-path
      reference: the host is taken off and the request is routed on what
      follows it, so `GET //wallets/5` is routed as `GET /5`. */
  lemma RouteNetworkPath(verb: string, host: string, p: string)
    requires host != [] && forall k | 0 <= k < |host| :: host[k] !in {'/', '?', '#', '@', ':'}
    requires ':' !in p && '?' !in p && '#' !in p && (p == [] || p[0] != '/')
    ensures Route(verb, "//" + host + "/" + p) == Route(verb, "/" + p)
  {
    RoutePathNetwork(host, p);
  }

  lemma RoutePathNetwork(host: string, p: string)
    requires host != [] && forall k | 0 <= k < |host| :: host[k] !in {'/', '?', '#', '@', ':'}
    requires ':' !in p && '?' !in p && '#' !in p && (p == [] || p[0] != '/')
    ensures RoutePath("//" + host + "/" + p) == RoutePath("/" + p)
  {
    assert "//" + host + "/" + p == "//" + host + ("/" + p);
    assert forall k | 1 <= k < |"/" + p| :: ("/" + p)[k] == p[k - 1];
    NetworkPath(host, "/" + p);
    PlainPath("/" + p, []);
    assert "/" + p + [] == "/" + p;
  }

  /** `GET //wallets/<n>` never reaches `balance`: `wallets` is taken for
      a host, and the request is a 404 for "/<n>". */
  lemma NetworkPathWallet(n: nat)
    ensures Route("GET", "//wallets/" + Decimal(n)) == NotFound("GET", "/" + Decimal(n))
  {
    var d := Decimal(n);
    DigitsClean(d);
    NetworkPathUnrouted("GET", "wallets", d);
    NetworkWalletUri(d);
  }

  lemma NetworkWalletUri(d: string)
    ensures "//wallets/" + d == "//" + "wallets" + "/" + d
  {
  }

  /** Digits hold no colon, query or fragment mark, slash or control
      character, and do not start a `wallets/` path. */
  lemma DigitsClean(d: string)
    requires d != [] && IsDigits(d)
    ensures ':' !in d && '?' !in d && '#' !in d && Printable(d)
    ensures d[0] != 'w' && d[0] != '/' && d[|d| - 1] != '/'
  {
    forall k | 0 <= k < |d| ensures d[k] != ':' && d[k] != '?' && d[k] != '#' && !IsControl(d[k]) {
      assert IsDigit(d[k]);
    }
  }

  /** A network-path reference whose path matches no entry of the table. */
  lemma NetworkPathUnrouted(verb: string, host: string, p: string)
    requires host != [] && forall k | 0 <= k < |host| :: host[k] !in {'/', '?', '#', '@', ':'}
    requires ':' !in p && '?' !in p && '#' !in p && Printable(p)
    requires p != [] && p[0] != '/' && p[|p| - 1] != '/'
    requires verb != "OPTIONS"
    requires verb == "POST" ==> p !in {"users", "wallets/credit", "tips"}
    requires verb == "GET" ==> MatchWallet(p).None?
    ensures Route(verb, "//" + host + "/" + p) == NotFound(verb, "/" + p)
  {
    RouteNetworkPath(verb, host, p);
    Unrouted(verb, p);
  }

  /** `//` followed by nothing, a slash, a query or a fragment is refused by
      `parse_url`, and the refusal trims to "": the health check answers,
      so `GET ///wallets/5` gets the health check. */
  lemma RouteEmptyAuthority(verb: string, rest: string)
    requires verb != "OPTIONS"
    requires rest == [] || rest[0] in {'/', '?', '#'}
    ensures Route(verb, "//" + rest) == HealthCheck
  {
    EmptyAuthorityRejected(rest);
  }

  /** A request URI made of one slash and a clean path is routed on that path. */
  lemma RoutePathOfSlashed(p: string)
    requires ':' !in p && '?' !in p && '#' !in p && Printable(p)
    requires p != [] && p[0] != '/' && p[|p| - 1] != '/'
    ensures RoutePath("/" + p) == p
  {
    SlashedClean(p);
    RoutePathPlain("/" + p);
    TrimSlashed(p);
  }

  lemma TrimSlashed(p: string)
    requires p != [] && p[0] != '/' && p[|p| - 1] != '/'
    ensures Trim("/" + p, {'/'}) == p
  {
    TrimPadded("/", p, [], {'/'});
    TrimClean(p, {'/'});
    assert "/" + p + [] == "/" + p;
  }

  lemma SlashedClean(p: string)
    requires ':' !in p && '?' !in p && '#' !in p && Printable(p)
    requires p != [] && p[0] != '/'
    ensures PlainRequestPath("/" + p) && Sanitize("/" + p) == "/" + p
  {
    var uri := "/" + p;
    assert forall k | 1 <= k < |uri| :: uri[k] == p[k - 1];
  }

  /** `GET /wallets/<n>` reaches the balance handler for user `n`: the
      digits the router parses are the ones the client wrote, for every `n`
      PHP's integers hold. */
  lemma BalanceRoundTrip(n: nat)
    requires n <= PhpIntMax
    ensures Route("GET", "/wallets/" + Decimal(n)) == WalletBalance(n)
  {
    var d := Decimal(n);
    WalletUri(d);
    WalletDigits(d);
    ParseDecimal(n);
  }

  /** A larger `n` reaches the balance handler for PHP_INT_MAX, or for 0
      once the number is too large for a double. */
  lemma BalanceBeyondIntMax(n: nat)
    requires n > PhpIntMax
    ensures Route("GET", "/wallets/" + Decimal(n)) == WalletBalance(if n < DoubleOverflow then PhpIntMax else 0)
  {
    var d := Decimal(n);
    WalletUri(d);
    WalletDigits(d);
    ParseDecimal(n);
  }

  /** The request URI of a wallet is routed on its path without the slash. */
  lemma WalletUri(d: string)
    requires d != [] && IsDigits(d)
    ensures RoutePath("/wallets/" + d) == "wallets/" + d
  {
    WalletPathClean(d);
    RoutePathOfSlashed("wallets/" + d);
    SlashWalletUri(d);
  }

  lemma SlashWalletUri(d: string)
    ensures "/wallets/" + d == "/" + ("wallets/" + d)
  {
    assert "/wallets/" == "/" + "wallets/";
  }

  /** A wallet path holds no colon, query or fragment mark, no control
      character and no outer slash. */
  lemma WalletPathClean(d: string)
    requires d != [] && IsDigits(d)
    ensures var p := "wallets/" + d;
            ':' !in p && '?' !in p && '#' !in p && Printable(p) && p[0] != '/' && p[|p| - 1] != '/'
  {
    var p := "wallets/" + d;
    forall k | 0 <= k < |p| ensures p[k] != ':' && p[k] != '?' && p[k] != '#' && !IsControl(p[k]) {
      if k >= 8 { assert p[k] == d[k - 8]; }
    }
    assert p[|p| - 1] == d[|d| - 1];
  }

  /** `wallets/` followed by digits matches the wallet route with the cast
      of their value. */
  lemma WalletDigits(d: string)
    requires d != [] && IsDigits(d)
    ensures MatchWallet("wallets/" + d) == Some(IntCast(ParseDigits(d)))
  {
    var p := "wallets/" + d;
    assert p[..8] == "wallets/" && p[8..] == d;
  }

  /** Every wallet request that reaches `balance` was digits after
      `wallets/`: `parse_url` has already turned a newline into `_`, so the
      final-newline case of the pattern never comes from a request. */
  lemma WalletRouteDigitsOnly(verb: string, requestUri: string)
    requires Route(verb, requestUri).WalletBalance?
    ensures var p := RoutePath(requestUri);
            |p| > 8 && IsDigits(p[8..]) && Route(verb, requestUri).userId == IntCast(ParseDigits(p[8..]))
  {
    var p := RoutePath(requestUri);
    match PathOf(requestUri)
    case Path(q) =>
      assert p[|p| - 1] in q;
    case _ =>
  }

  /** A request that matches no entry of the table gets the 404 reply, which
      echoes the method and the trimmed path with one leading slash. */
  lemma FallThrough(verb: string, requestUri: string)
    requires verb != "OPTIONS" && RoutePath(requestUri) != ""
    requires verb == "POST" ==> RoutePath(requestUri) !in {"users", "wallets/credit", "tips"}
    requires verb == "GET" ==> MatchWallet(RoutePath(requestUri)).None?
    ensures Route(verb, requestUri) == NotFound(verb, "/" + RoutePath(requestUri))
  {
  }

  /** A request for a clean path that matches no entry of the table. */
  lemma Unrouted(verb: string, path: string)
    requires ':' !in path && '?' !in path && '#' !in path && Printable(path)
    requires path != [] && path[0] != '/' && path[|path| - 1] != '/'
    requires verb != "OPTIONS"
    requires verb == "POST" ==> path !in {"users", "wallets/credit", "tips"}
    requires verb == "GET" ==> MatchWallet(path).None?
    ensures Route(verb, "/" + path) == NotFound(verb, "/" + path)
  {
    RoutePathOfSlashed(path);
  }

  /** The two routes the settlement agent calls are not in the table: they
      fall through to the 404 reply. */
  lemma AgentRoutesUnrouted(verb: string, path: string)
    requires (verb, path) in {("GET", "tips/pending"), ("POST", "tips/process")}
    ensures Route(verb, "/" + path) == NotFound(verb, "/" + path)
  {
    if verb == "GET" {
      assert path[..8][0] == 't';
    }
    Unrouted(verb, path);
  }

  /** The dashboard's `GET /users` and `GET /tips` are not routed either. */
  lemma DashboardRoutesUnrouted(path: string)
    requires path in {"users", "tips"}
    ensures Route("GET", "/" + path) == NotFound("GET", "/" + path)
  {
    Unrouted("GET", path);
  }

  /** A non-numeric id or an extra segment does not match the wallet route. */
  lemma MalformedWalletPaths(path: string)
    requires path in {"wallets/abc", "wallets/7/extra"}
    ensures Route("GET", "/" + path) == NotFound("GET", "/" + path)
  {
    if path == "wallets/7/extra" {
      assert path[8..][1] == '/' && path[|path| - 1] == 'a';
    } else {
      assert path[8..][0] == 'a';
    }
    Unrouted("GET", path);
  }

  /** The POST routes answer only to POST, and the wallet route only to GET. */
  lemma WrongMethodUnrouted(verb: string, path: string)
    requires (verb, path) in {("PUT", "users"), ("DELETE", "tips"), ("GET", "wallets/credit"), ("POST", "wallets/7")}
    ensures Route(verb, "/" + path) == NotFound(verb, "/" + path)
  {
    if path == "wallets/credit" {
      assert path[8..][0] == 'c';
    }
    Unrouted(verb, path);
  }
}
