/** Authentication: dispatch between the rotating-token and the legacy login
    scheme, extraction of the access token from the `Set-Cookie` entries, and the
    normalisation of failed logins into the result record. */
module Auth {
  import opened Wrappers
  import opened JsonValue
  import opened Gateway

  /** The name of a symbol other than `:new` and `:old`. */
  type OtherName = name: string | name != "new" && name != "old"

  /** The `method:` keyword of `authenticate`: `:new`, `:old`, or any other symbol. */
  datatype Scheme = New | Old | OtherSymbol(name: OtherName)

  /** The authentication result hash: `token`, `token_exp`, `code` (absent when a
      network failure exposes no response) and `error`. */
  datatype AuthResult = AuthResult(token: Option<string>, tokenExp: Json, code: Option<int>, error: Option<ErrorValue>)

  const AccessTokenPrefix := "folioAccessToken="
  const NetworkErrorLabel := "Network error: "

  predicate StartsWith(s: string, prefix: string)
  {
    |prefix| <= |s| && s[..|prefix|] == prefix
  }

  /** The first position at or after `from` that holds `c`. */
  function FirstIndexOf(s: string, c: char, from: nat): (r: Option<nat>)
    ensures r.Some? ==> from <= r.value < |s| && s[r.value] == c
    ensures r.Some? ==> forall j | from <= j < r.value :: s[j] != c
    ensures r.None? ==> forall j | from <= j < |s| :: s[j] != c
    decreases |s| - from
  {
    if from >= |s| then None
    else if s[from] == c then Some(from)
    else FirstIndexOf(s, c, from + 1)
  }

  /** A cookie on which `/folioAccessToken=(.*?);/` matches at its start: it begins
      with the prefix and a `;` follows with no line feed before it (`.` does not
      match a line feed). */
  predicate TokenCookieMatches(cookie: string)
  {
    && StartsWith(cookie, AccessTokenPrefix)
    && var semi := FirstIndexOf(cookie, ';', |AccessTokenPrefix|);
       semi.Some? && forall j | |AccessTokenPrefix| <= j < semi.value :: cookie[j] != '\n'
  }

  /** The regex's capture group: the text between the prefix and the next `;`. */
  function ExtractToken(cookie: string): (token: string)
    requires TokenCookieMatches(cookie)
    ensures |AccessTokenPrefix| + |token| < |cookie|
    ensures cookie[..|AccessTokenPrefix| + |token| + 1] == AccessTokenPrefix + token + ";"
    ensures forall i | 0 <= i < |token| :: token[i] != ';' && token[i] != '\n'
  {
    var semi := FirstIndexOf(cookie, ';', |AccessTokenPrefix|).value;
    assert forall i | |AccessTokenPrefix| <= i < semi :: cookie[i] != ';' && cookie[i] != '\n';
    cookie[|AccessTokenPrefix|..semi]
  }

  /** Building a cookie from a token and reading it back gives the token. */
  lemma {:induction false} ExtractTokenRoundTrip(token: string, attributes: string)
    requires forall i | 0 <= i < |token| :: token[i] != ';' && token[i] != '\n'
    ensures TokenCookieMatches(AccessTokenPrefix + token + ";" + attributes)
    ensures ExtractToken(AccessTokenPrefix + token + ";" + attributes) == token
  {
    var cookie := AccessTokenPrefix + token + ";" + attributes;
    var p := |AccessTokenPrefix|;
    assert cookie[..p] == AccessTokenPrefix;
    forall j | p <= j < p + |token| ensures cookie[j] != ';' && cookie[j] != '\n' {
      assert cookie[j] == token[j - p];
    }
    assert cookie[p + |token|] == ';';
    var semi := FirstIndexOf(cookie, ';', p);
    assert semi == Some(p + |token|);
    assert cookie[p..p + |token|] == token;
  }

  /** The index of the first `Set-Cookie` entry that starts with the prefix. */
  function FirstTokenCookie(cookies: seq<string>): (r: Option<nat>)
    ensures r.Some? ==> r.value < |cookies| && StartsWith(cookies[r.value], AccessTokenPrefix)
    ensures r.Some? ==> forall j | 0 <= j < r.value :: !StartsWith(cookies[j], AccessTokenPrefix)
    ensures r.None? ==> forall j | 0 <= j < |cookies| :: !StartsWith(cookies[j], AccessTokenPrefix)
  {
    if cookies == [] then None
    else if StartsWith(cookies[0], AccessTokenPrefix) then Some(0)
    else match FirstTokenCookie(cookies[1..])
      case None => None
      case Some(i) => Some(i + 1)
  }

  /** The entries the scan can read without crashing: the first token cookie, if
      any, has the `;` the regex needs. */
  predicate SetCookieWellFormed(cookies: seq<string>)
  {
    match FirstTokenCookie(cookies)
    case None => true
    case Some(i) => TokenCookieMatches(cookies[i])
  }

  /** The access token the scan finds: read from the first token cookie, nil when
      there is none. */
  function AccessToken(cookies: seq<string>): Option<string>
    requires SetCookieWellFormed(cookies)
  {
    match FirstTokenCookie(cookies)
    case None => None
    case Some(i) => Some(ExtractToken(cookies[i]))
  }

  /** The `set_cookie` loop of `authenticate_request`: stop at the first entry
      starting with the prefix, take its token and the body's expiry. */
  method ScanSetCookie(cookies: seq<string>, body: Object) returns (token: Option<string>, tokenExp: Json)
    requires SetCookieWellFormed(cookies)
    ensures token == AccessToken(cookies)
    ensures tokenExp == if token.Some? then Get(body, "accessTokenExpiration") else JNull
  {
    token, tokenExp := None, JNull;
    var i := 0;
    while i < |cookies|
      invariant 0 <= i <= |cookies|
      invariant forall j | 0 <= j < i :: !StartsWith(cookies[j], AccessTokenPrefix)
    {
      if StartsWith(cookies[i], AccessTokenPrefix) {
        token := Some(ExtractToken(cookies[i]));
        tokenExp := Get(body, "accessTokenExpiration");
        break;
      }
      i := i + 1;
    }
  }

  /** The response of the login POST may be read under `scheme`: the rotating
      scheme needs a scannable `Set-Cookie` list. */
  predicate Readable(o: Outcome, scheme: Scheme)
  {
    scheme == New && o.Ok? && o.headers.setCookie.Some? ==> SetCookieWellFormed(o.headers.setCookie.value)
  }

  /** `authenticate_request`: turn the login outcome into the result hash. */
  function AuthenticateRequest(o: Outcome, scheme: Scheme): (r: Reply<AuthResult>)
    requires Readable(o, scheme)
    // only a missing Set-Cookie header under the rotating scheme escapes as an exception
    ensures r.Raised? <==> scheme == New && o.Ok? && o.headers.setCookie.None?
    ensures r.Raised? ==> r.exception == NoMethodError
    // a successful login never reports an error, a failed one never yields a token
    ensures r.Returned? ==> (r.value.error.None? <==> o.Ok?)
    ensures r.Returned? && r.value.token.Some? ==> o.Ok?
    ensures r.Returned? && r.value.tokenExp != JNull ==> scheme == New && r.value.token.Some?
    // the rotating scheme reads the token from the cookies, the others from x-okapi-token
    ensures o.Ok? && scheme == New && o.headers.setCookie.Some? ==>
      r.value.token == AccessToken(o.headers.setCookie.value)
    ensures o.Ok? && scheme != New ==> r.value.token == o.headers.okapiToken && r.value.tokenExp == JNull
    ensures o.Ok? && r.Returned? ==> r.value.code == Some(o.code)
    // failures: the status and raw body, or a labelled network error
    ensures o.HttpErr? ==> r == Returned(AuthResult(None, JNull, Some(o.code), Some(Text(o.raw))))
    ensures o.NetErr? ==> r.Returned? && r.value.token.None?
    ensures o.NetErr? ==> (r.value.code.Some? <==> o.hasResponse) && (o.hasResponse ==> r.value.code == Some(o.code))
    ensures o.NetErr? ==> r.value.error == Some(Text(NetworkErrorLabel + o.className + " - " + o.message))
  {
    match o
    case Ok(code, body, headers) =>
      if scheme == New then
        match headers.setCookie
        case None => Raised(NoMethodError)
        case Some(cookies) =>
          var token := AccessToken(cookies);
          var exp := if token.Some? then Get(body, "accessTokenExpiration") else JNull;
          Returned(AuthResult(token, exp, Some(code), None))
      else
        Returned(AuthResult(headers.okapiToken, JNull, Some(code), None))
    case HttpErr(code, raw) =>
      Returned(AuthResult(None, JNull, Some(code), Some(Text(raw))))
    case NetErr(hasResponse, code, className, message) =>
      var error := Some(Text(NetworkErrorLabel + className + " - " + message));
      Returned(AuthResult(None, JNull, if hasResponse then Some(code) else None, error))
  }

  /** The login endpoint each scheme posts to. */
  function LoginPathFor(scheme: Scheme): LoginPath
  {
    if scheme == New then LoginWithExpiry else Login
  }

  /** `authenticate`: `:new` goes through `authenticate_new`, every other symbol
      through `authenticate_old`; both issue exactly one login POST. */
  function Authenticate(gw: Transport, username: string, password: string, scheme: Scheme := New): (r: Run<AuthResult>)
    requires Readable(gw(PostLogin(LoginPathFor(scheme), username, password)), scheme)
    ensures |r.sent| == 1 && r.sent[0].PostLogin?
    ensures r.sent[0].username == username && r.sent[0].password == password
    ensures r.sent[0].path == LoginWithExpiry <==> scheme == New
    ensures r.reply == AuthenticateRequest(gw(r.sent[0]), if scheme == New then New else Old)
  {
    var login := PostLogin(LoginPathFor(scheme), username, password);
    Run(AuthenticateRequest(gw(login), if scheme == New then New else Old), [login])
  }

  /** Every symbol other than `:new` behaves exactly like `:old`. */
  lemma OtherSchemesActAsOld(gw: Transport, username: string, password: string, name: OtherName)
    ensures Authenticate(gw, username, password, OtherSymbol(name)) == Authenticate(gw, username, password, Old)
  {
  }

  /** Under the rotating scheme, a cookie `folioAccessToken=<t>; ...` ahead of any
      other token cookie yields token `t` and the body's expiry. */
  lemma {:induction false} RotatingSchemeReadsFirstTokenCookie(
    code: int, body: Object, before: seq<string>, token: string, attributes: string, after: seq<string>)
    requires forall j | 0 <= j < |before| :: !StartsWith(before[j], AccessTokenPrefix)
    requires forall i | 0 <= i < |token| :: token[i] != ';' && token[i] != '\n'
    ensures var cookies := before + [AccessTokenPrefix + token + ";" + attributes] + after;
      && SetCookieWellFormed(cookies)
      && AuthenticateRequest(Ok(code, body, Headers(Some(cookies), None)), New)
         == Returned(AuthResult(Some(token), Get(body, "accessTokenExpiration"), Some(code), None))
  {
    var cookie := AccessTokenPrefix + token + ";" + attributes;
    var cookies := before + [cookie] + after;
    ExtractTokenRoundTrip(token, attributes);
    assert cookies[|before|] == cookie;
    assert forall j | 0 <= j < |before| :: cookies[j] == before[j];
    assert FirstTokenCookie(cookies) == Some(|before|);
  }
}
