/**
 * The values `authorize` computes: the form posted to the token endpoint for the
 * authorization-code and refresh-token grants (sections 4.1.3 and 6 of RFC 6749),
 * the `[auth]` and `[global]` sections written from the answer, and the
 * authorization code read from the pasted callback URL.
 */
module Credentials {
  import opened Py
  import opened Ini
  import opened External

  const AuthorizationCode := "authorization_code"
  const RefreshToken := "refresh_token"

  /** Seconds taken off the token's lifetime so that it is renewed before it lapses. */
  const ExpiryMargin := 60

  /** The form posted to the token endpoint. */
  function TokenPayload(redirectUri: string, clientId: string, secret: string, grantType: string, tokenCode: string): (p: Section)
    ensures "redirect_uri" in p && p["redirect_uri"] == redirectUri
    ensures "client_id" in p && p["client_id"] == clientId
    ensures "client_secret" in p && p["client_secret"] == secret
    ensures grantType == AuthorizationCode ==>
      p.Keys == {"redirect_uri", "client_id", "client_secret", "grant_type", "code"} &&
      p["grant_type"] == AuthorizationCode && p["code"] == tokenCode
    ensures grantType == RefreshToken ==>
      p.Keys == {"redirect_uri", "client_id", "client_secret", "grant_type", "refresh_token"} &&
      p["grant_type"] == RefreshToken && p["refresh_token"] == tokenCode
    ensures grantType != AuthorizationCode && grantType != RefreshToken ==>
      p.Keys == {"redirect_uri", "client_id", "client_secret"}
  {
    var base := map["redirect_uri" := redirectUri, "client_id" := clientId, "client_secret" := secret];
    if grantType == AuthorizationCode then base["grant_type" := AuthorizationCode]["code" := tokenCode]
    else if grantType == RefreshToken then base["grant_type" := RefreshToken]["refresh_token" := tokenCode]
    else base
  }

  /**
   * The new `[auth]` section. A refresh grant starts from the refresh token it
   * used; a refresh token in the answer replaces whatever is there.
   */
  function AuthSection(grantType: string, tokenCode: string, response: TokenResponse, now: int): (auth: Section)
    ensures auth.Keys == {"expires_at", "access_token"} +
      (if grantType == RefreshToken || response.refreshToken.Some? then {"refresh_token"} else {})
    ensures auth["expires_at"] == IntToString(now + response.expiresIn - ExpiryMargin)
    ensures auth["access_token"] == response.accessToken
    ensures response.refreshToken.Some? ==> auth["refresh_token"] == response.refreshToken.value
    ensures grantType == RefreshToken && response.refreshToken.None? ==> auth["refresh_token"] == tokenCode
  {
    var kept: Section := if grantType == RefreshToken then map["refresh_token" := tokenCode] else map[];
    var expiresAt := now + response.expiresIn - ExpiryMargin;
    var auth := kept["expires_at" := IntToString(expiresAt)]["access_token" := response.accessToken];
    match response.refreshToken
    case Some(token) => auth["refresh_token" := token]
    case None => auth
  }

  /** The stored expiry reads back as the answer's lifetime from `now`, less the margin. */
  lemma ExpiryReadsBack(grantType: string, tokenCode: string, response: TokenResponse, now: int)
    ensures ParseFloat(AuthSection(grantType, tokenCode, response, now)["expires_at"]) == Some((now + response.expiresIn - ExpiryMargin) as real)
  {
    ParseFloatToString(now + response.expiresIn - ExpiryMargin);
  }

  /** The new `[global]` section: the three client settings and nothing else. */
  function GlobalSection(clientId: string, secret: string, redirectUri: string): (g: Section)
    ensures g.Keys == {"client_id", "secret", "redirect_uri"}
    ensures g["client_id"] == clientId && g["secret"] == secret && g["redirect_uri"] == redirectUri
  {
    map["client_id" := clientId]["secret" := secret]["redirect_uri" := redirectUri]
  }

  /** The configuration after `authorize`: both sections replaced whole, all others kept. */
  function Authorized(c: Config, redirectUri: string, clientId: string, secret: string,
                      grantType: string, tokenCode: string, response: TokenResponse, now: int): (r: Config)
    ensures r.Keys == c.Keys + {"auth", "global"}
    ensures forall s :: s in c && s != "auth" && s != "global" ==> r[s] == c[s]
    ensures r["auth"] == AuthSection(grantType, tokenCode, response, now)
    ensures r["global"] == GlobalSection(clientId, secret, redirectUri)
  {
    c["auth" := AuthSection(grantType, tokenCode, response, now)]["global" := GlobalSection(clientId, secret, redirectUri)]
  }

  /** After `authorize` the configuration holds no default device, whatever it held before. */
  lemma AuthorizeForgetsDefaultDevice(c: Config, redirectUri: string, clientId: string, secret: string,
                                      grantType: string, tokenCode: string, response: TokenResponse, now: int)
    ensures Get(Authorized(c, redirectUri, clientId, secret, grantType, tokenCode, response, now), "global", "default_device") == None
  {
  }

  /** `query.split('=')[1]`: the text between the first and the second `=`. */
  function TokenCode(query: string): (r: Option<string>)
    ensures r.Some? <==> '=' in query
    ensures r.Some? ==> '=' !in r.value
  {
    Index(Split(query, '='), 1)
  }

  /** A query with an `=` yields exactly the text from after the first one up to the next one or the end. */
  lemma TokenCodeBetweenSeparators(before: string, code: string, after: string)
    requires '=' !in before && '=' !in code
    requires after == [] || after[0] == '='
    ensures TokenCode(before + "=" + code + after) == Some(code)
  {
    var q := before + "=" + code + after;
    assert q == before + ['='] + (code + after);
    SplitAtFirst(before, code + after, '=');
    SplitPrefix(code, after, '=');
    if after == [] {
      assert Split(after, '=') == [""];
      assert code + "" == code;
      assert Split(code + after, '=') == [code];
      assert Split(q, '=') == [before, code];
    } else {
      assert after == [] + ['='] + after[1..];
      SplitAtFirst([], after[1..], '=');
      assert Split(after, '=')[0] == "";
      assert code + "" == code;
      assert Split(code + after, '=')[0] == code;
      assert Split(q, '=')[1] == code;
    }
  }
}
