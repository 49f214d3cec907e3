/** The decision tree of app/api/github/callback/route.ts: the query
    parameters, the two environment values and the token exchange decide,
    in a fixed order, which parameter the redirect to the site's root
    carries. The exchange (a POST to GitHub and the JSON of its reply) is
    the parameter `exchange`, consulted only where the handler performs it. */
module GithubCallback {
  import opened Wrappers

  /** `url.searchParams.get('code')` and `get('error')`, already decoded. */
  datatype Query = Query(code: Option<string>, error: Option<string>)

  /** `NEXT_PUBLIC_GITHUB_CLIENT_ID` and `GITHUB_CLIENT_SECRET`. */
  datatype Env = Env(clientId: Option<string>, clientSecret: Option<string>)

  /** The token exchange: it threw (network or JSON error), or answered
      with optional `error` and `access_token` fields. */
  datatype Exchange = ExchangeThrew | TokenReply(error: Option<string>, accessToken: Option<string>)

  datatype Redirect = ErrorRedirect(reason: string) | TokenRedirect(token: string)

  const NoCode: string := "no_code"
  const MissingEnv: string := "missing_env"
  const NoToken: string := "no_token"
  const ServerError: string := "server_error"

  /** The exchange is attempted: no error parameter, a code, both
      environment values. */
  predicate ExchangeAttempted(q: Query, env: Env) {
    !Truthy(q.error) && Truthy(q.code) && Truthy(env.clientId) && Truthy(env.clientSecret)
  }

  /** `GET`: the redirect it chooses. Each check is stated with the checks
      before it passing: the error parameter, then the code, then the two
      environment values, then the exchange (a throw, its `error`, its
      `access_token`). */
  function Callback(q: Query, env: Env, exchange: Exchange): (r: Redirect)
    ensures r.TokenRedirect? <==>
      ExchangeAttempted(q, env) && exchange.TokenReply? && !Truthy(exchange.error) && Truthy(exchange.accessToken)
    ensures r.TokenRedirect? ==> r.token == exchange.accessToken.value
    ensures Truthy(q.error) ==> r == ErrorRedirect(q.error.value)
    ensures !Truthy(q.error) && !Truthy(q.code) ==> r == ErrorRedirect(NoCode)
    ensures !Truthy(q.error) && Truthy(q.code) && !(Truthy(env.clientId) && Truthy(env.clientSecret)) ==>
      r == ErrorRedirect(MissingEnv)
    ensures ExchangeAttempted(q, env) && exchange.ExchangeThrew? ==> r == ErrorRedirect(ServerError)
    ensures ExchangeAttempted(q, env) && exchange.TokenReply? && Truthy(exchange.error) ==>
      r == ErrorRedirect(exchange.error.value)
    ensures ExchangeAttempted(q, env) && exchange.TokenReply? && !Truthy(exchange.error) && !Truthy(exchange.accessToken) ==>
      r == ErrorRedirect(NoToken)
  {
    if Truthy(q.error) then ErrorRedirect(q.error.value)
    else if !Truthy(q.code) then ErrorRedirect(NoCode)
    else if !Truthy(env.clientId) || !Truthy(env.clientSecret) then ErrorRedirect(MissingEnv)
    else match exchange
      case ExchangeThrew => ErrorRedirect(ServerError)
      case TokenReply(error, token) =>
        if Truthy(error) then ErrorRedirect(error.value)
        else if Truthy(token) then TokenRedirect(token.value)
        else ErrorRedirect(NoToken)
  }

  /** Before the exchange the handler has decided already: the result does
      not depend on the exchange unless the exchange is attempted. */
  lemma ExchangeIrrelevantBeforeEnv(q: Query, env: Env, e1: Exchange, e2: Exchange)
    requires !ExchangeAttempted(q, env)
    ensures Callback(q, env, e1) == Callback(q, env, e2)
    ensures Callback(q, env, e1).ErrorRedirect?
  {
  }

  /** The order of the checks when several fail at once: an error
      parameter beats a missing code and missing configuration, and a
      missing code beats missing configuration. */
  lemma CheckOrder(q: Query, env: Env, exchange: Exchange)
    ensures Truthy(q.error) && !Truthy(q.code) ==> Callback(q, env, exchange) == ErrorRedirect(q.error.value)
    ensures Truthy(q.error) && !(Truthy(env.clientId) && Truthy(env.clientSecret)) ==>
      Callback(q, env, exchange) == ErrorRedirect(q.error.value)
    ensures !Truthy(q.error) && !Truthy(q.code) && !(Truthy(env.clientId) && Truthy(env.clientSecret)) ==>
      Callback(q, env, exchange) == ErrorRedirect(NoCode)
  {
  }

  // ---------------------------------------------------------------------
  // The redirect URL

  /** `new URL('/', request.url).toString()` for the request's origin. */
  function BaseUrl(origin: string): string {
    origin + "/"
  }

  /** The URL as the handler writes it: the value is pasted into the query
      without escaping. */
  function RedirectUrlAsWritten(origin: string, r: Redirect): string {
    match r
    case ErrorRedirect(reason) => BaseUrl(origin) + "?github_error=" + reason
    case TokenRedirect(token) => BaseUrl(origin) + "?github_token=" + token
  }

  /** A callback link whose `error` parameter decodes to
      `x&github_token=evil` produces an error redirect whose query reads as
      two parameters, the second of them a `github_token` the link chose. */
  lemma ErrorRedirectInjectsToken()
    ensures var q := Query(None, Some("x&github_token=evil"));
      var url := RedirectUrlAsWritten("https://techwiser.app", Callback(q, Env(None, None), ExchangeThrew));
      url == "https://techwiser.app/?" + "github_error=x" + "&" + "github_token=evil"
  {
    var q := Query(None, Some("x&github_token=evil"));
    assert Callback(q, Env(None, None), ExchangeThrew) == ErrorRedirect("x&github_token=evil");
  }

  /** The delimiters of a query string, escaped by the corrected URL. */
  predicate IsDelimiter(c: char) {
    c == '%' || c == '&' || c == '=' || c == '#' || c == '+'
  }

  function Escape(c: char): string
    requires IsDelimiter(c)
  {
    match c
    case '%' => "%25"
    case '&' => "%26"
    case '=' => "%3D"
    case '#' => "%23"
    case '+' => "%2B"
  }

  /** The character a three-character escape stands for. */
  function Unescape(s: string): Option<char>
    requires |s| == 3
  {
    if s == "%25" then Some('%')
    else if s == "%26" then Some('&')
    else if s == "%3D" then Some('=')
    else if s == "%23" then Some('#')
    else if s == "%2B" then Some('+')
    else None
  }

  /** Percent-encoding of the delimiters; every other character is kept. */
  function EncodeValue(v: string): (r: string)
    ensures forall i :: 0 <= i < |r| ==> r[i] != '&' && r[i] != '=' && r[i] != '#' && r[i] != '+'
  {
    if v == [] then []
    else (if IsDelimiter(v[0]) then Escape(v[0]) else [v[0]]) + EncodeValue(v[1..])
  }

  function DecodeValue(s: string): string
    decreases |s|
  {
    if s == [] then []
    else if |s| >= 3 && Unescape(s[..3]).Some? then [Unescape(s[..3]).value] + DecodeValue(s[3..])
    else [s[0]] + DecodeValue(s[1..])
  }

  /** Decoding gives back exactly the value that was encoded. */
  lemma {:induction false} DecodeEncode(v: string)
    ensures DecodeValue(EncodeValue(v)) == v
  {
    if v != [] {
      var head := if IsDelimiter(v[0]) then Escape(v[0]) else [v[0]];
      var e := head + EncodeValue(v[1..]);
      assert EncodeValue(v) == e;
      DecodeEncode(v[1..]);
      if IsDelimiter(v[0]) {
        assert e[..3] == head;
        assert e[3..] == EncodeValue(v[1..]);
      } else {
        assert e[0] == v[0] && e[1..] == EncodeValue(v[1..]);
        if |e| >= 3 {
          assert e[0] != '%';
          assert e[..3][0] == e[0];
        }
      }
      assert v == [v[0]] + v[1..];
    }
  }

  /** The URL up to the value: the base, the parameter the redirect carries
      and '='; then that parameter's value. */
  function QueryPrefix(origin: string, r: Redirect): string {
    BaseUrl(origin) + (if r.ErrorRedirect? then "?github_error=" else "?github_token=")
  }

  function ParamValue(r: Redirect): string {
    if r.ErrorRedirect? then r.reason else r.token
  }

  /** Any text followed by an encoded value: after the text there is no
      query delimiter, and what follows decodes to the value. */
  lemma EncodedAfter(prefix: string, v: string)
    ensures var url := prefix + EncodeValue(v);
      |prefix| <= |url| && url[..|prefix|] == prefix
      && (forall i :: |prefix| <= i < |url| ==> url[i] != '&' && url[i] != '=' && url[i] != '#')
      && DecodeValue(url[|prefix|..]) == v
  {
    var e := EncodeValue(v);
    var url := prefix + e;
    assert url[..|prefix|] == prefix;
    assert url[|prefix|..] == e;
    forall i | |prefix| <= i < |url|
      ensures url[i] != '&' && url[i] != '=' && url[i] != '#'
    {
      assert url[i] == e[i - |prefix|];
    }
    DecodeEncode(v);
  }

  /** The URL as evidently intended: the value is encoded, so the query is
      one parameter whatever the value holds. After the parameter name and
      '=' the URL holds no query delimiter, and that text decodes to exactly
      the redirect's value. */
  function RedirectUrl(origin: string, r: Redirect): (url: string)
    ensures var prefix := QueryPrefix(origin, r);
      |prefix| <= |url| && url[..|prefix|] == prefix
      && (forall i :: |prefix| <= i < |url| ==> url[i] != '&' && url[i] != '=' && url[i] != '#')
      && DecodeValue(url[|prefix|..]) == ParamValue(r)
  {
    EncodedAfter(QueryPrefix(origin, r), ParamValue(r));
    QueryPrefix(origin, r) + EncodeValue(ParamValue(r))
  }

  /** For the values the handler itself produces (the fixed reasons, and
      tokens made of letters, digits and '_'), encoding changes nothing, so
      the corrected URL equals the written one. */
  lemma {:induction false} EncodeKeepsPlainValues(v: string)
    requires forall i :: 0 <= i < |v| ==> !IsDelimiter(v[i])
    ensures EncodeValue(v) == v
  {
    if v != [] {
      EncodeKeepsPlainValues(v[1..]);
      assert !IsDelimiter(v[0]);
      assert v == [v[0]] + v[1..];
    }
  }

  /** The corrected URL differs from the written one only for values that
      hold a delimiter: for the fixed reasons and plain tokens they agree. */
  lemma RedirectUrlKeepsPlainRedirects(origin: string, r: Redirect)
    requires forall i :: 0 <= i < |ParamValue(r)| ==> !IsDelimiter(ParamValue(r)[i])
    ensures RedirectUrl(origin, r) == RedirectUrlAsWritten(origin, r)
  {
    EncodeKeepsPlainValues(ParamValue(r));
    assert RedirectUrl(origin, r) == QueryPrefix(origin, r) + ParamValue(r);
  }
}
