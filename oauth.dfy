/**
 * The OAuth service of crates/services/src/oauth/mod.rs: the per-provider client keys,
 * the callback URL, the authorization URL sent to the browser, and how each provider's
 * user-info document becomes an `OAuthUserInfo`. The HTTP exchanges are inputs: the token
 * response and the fetched documents arrive as `Result` values.
 */
module OAuth {
  import opened Wrappers
  import opened Text
  import opened Seqs
  import opened ApiErrors

  // ---------------------------------------------------------------- settings and keys

  datatype ProviderKeys = ProviderKeys(clientId: string, clientSecret: string)

  datatype OAuthSettings = OAuthSettings(
    baseUrl: string,
    google: ProviderKeys,
    facebook: ProviderKeys,
    github: ProviderKeys,
    linkedin: ProviderKeys,
    microsoft: ProviderKeys)

  const PROVIDERS: seq<string> := ["google", "facebook", "github", "linkedin", "microsoft"]

  predicate KnownProvider(provider: string) { provider in PROVIDERS }

  /** The settings block a provider name selects. */
  function KeysOf(settings: OAuthSettings, provider: string): (r: Option<ProviderKeys>)
    ensures r.Some? <==> KnownProvider(provider)
    ensures provider == "google" ==> r == Some(settings.google)
    ensures provider == "facebook" ==> r == Some(settings.facebook)
    ensures provider == "github" ==> r == Some(settings.github)
    ensures provider == "linkedin" ==> r == Some(settings.linkedin)
    ensures provider == "microsoft" ==> r == Some(settings.microsoft)
  {
    if provider == "google" then Some(settings.google)
    else if provider == "facebook" then Some(settings.facebook)
    else if provider == "github" then Some(settings.github)
    else if provider == "linkedin" then Some(settings.linkedin)
    else if provider == "microsoft" then Some(settings.microsoft)
    else None
  }

  /**
   * `provider_config`: an unknown name is UnknownProvider, a known provider whose client id
   * is empty is ProviderNotConfigured, and otherwise the (client id, client secret) pair.
   */
  function ProviderConfig(settings: OAuthSettings, provider: string): (r: Result<(string, string), OAuthError>)
    ensures r == Err(UnknownProvider(provider)) <==> !KnownProvider(provider)
    ensures (r == Err(ProviderNotConfigured(provider)))
      <==> (KnownProvider(provider) && KeysOf(settings, provider).value.clientId == [])
    ensures r.Err? ==> r == Err(UnknownProvider(provider)) || r == Err(ProviderNotConfigured(provider))
    ensures r.Ok? ==> (KnownProvider(provider) && r.value.0 != []
      && r.value == (KeysOf(settings, provider).value.clientId, KeysOf(settings, provider).value.clientSecret))
  {
    match KeysOf(settings, provider)
    case None => Err(UnknownProvider(provider))
    case Some(keys) =>
      if keys.clientId == [] then Err(ProviderNotConfigured(provider))
      else Ok((keys.clientId, keys.clientSecret))
  }

  const CALLBACK_PATH: string := "/api/oauth/callback/"

  /** `callback_url`: the base URL, the callback path, then the provider name. */
  function CallbackUrl(settings: OAuthSettings, provider: string): (r: string)
    ensures |r| == |settings.baseUrl| + |CALLBACK_PATH| + |provider|
    ensures r[..|settings.baseUrl|] == settings.baseUrl
    ensures r[|settings.baseUrl|..|settings.baseUrl| + |CALLBACK_PATH|] == CALLBACK_PATH
    ensures r[|settings.baseUrl| + |CALLBACK_PATH|..] == provider
  {
    settings.baseUrl + CALLBACK_PATH + provider
  }

  /** Two providers share a callback URL only if they are the same provider. */
  lemma CallbackUrlInjective(settings: OAuthSettings, p: string, q: string)
    ensures CallbackUrl(settings, p) == CallbackUrl(settings, q) <==> p == q
  {
    if CallbackUrl(settings, p) == CallbackUrl(settings, q) {
      var n := |settings.baseUrl| + |CALLBACK_PATH|;
      assert p == CallbackUrl(settings, p)[n..];
    }
  }

  // ---------------------------------------------------------------- percent-encoding

  /**
   * The characters `urlencoding::encode` leaves alone: ASCII letters and digits and `-`,
   * `_`, `.`, `~`. Every other character is written as the `%XX` escapes of its UTF-8 bytes,
   * with upper-case hexadecimal digits.
   */
  predicate Unreserved(c: char) {
    IsAsciiLetter(c) || IsAsciiDigit(c) || c == '-' || c == '_' || c == '.' || c == '~'
  }

  /** A character that can appear in an encoded string. */
  predicate EncodedChar(c: char) { Unreserved(c) || c == '%' }

  function HexUpper(d: nat): (c: char)
    requires d < 16
    ensures Unreserved(c)
  {
    if d < 10 then ('0' as int + d) as char else ('A' as int + d - 10) as char
  }

  /** The value of a hexadecimal digit of either case. */
  function HexValue(c: char): (r: Option<nat>)
    ensures r.Some? ==> r.value < 16
  {
    if '0' <= c <= '9' then Some(c as int - '0' as int)
    else if 'A' <= c <= 'F' then Some(c as int - 'A' as int + 10)
    else if 'a' <= c <= 'f' then Some(c as int - 'a' as int + 10)
    else None
  }

  lemma HexValueOfHexUpper(d: nat)
    requires d < 16
    ensures HexValue(HexUpper(d)) == Some(d)
  {
  }

  /** The UTF-8 encoding of a character: one byte below U+0080, else a lead byte and continuation bytes. */
  function Utf8(c: char): (r: seq<nat>)
    ensures 1 <= |r| <= 4
    ensures forall i :: 0 <= i < |r| ==> r[i] < 256
    ensures |r| == 1 <==> c as int < 0x80
    ensures |r| == 1 ==> r[0] == c as int
    ensures |r| > 1 ==> r[0] >= 0xC0 && forall i :: 1 <= i < |r| ==> 0x80 <= r[i] < 0xC0
  {
    var cp := c as int;
    if cp < 0x80 then [cp]
    else if cp < 0x800 then [0xC0 + cp / 0x40, 0x80 + cp % 0x40]
    else if cp < 0x10000 then [0xE0 + cp / 0x1000, 0x80 + (cp / 0x40) % 0x40, 0x80 + cp % 0x40]
    else [0xF0 + (cp / 0x40000) % 8, 0x80 + (cp / 0x1000) % 0x40, 0x80 + (cp / 0x40) % 0x40, 0x80 + cp % 0x40]
  }

  function PercentBytes(bytes: seq<nat>): (r: string)
    requires forall i :: 0 <= i < |bytes| ==> bytes[i] < 256
    ensures |r| == 3 * |bytes|
    ensures forall i :: 0 <= i < |r| ==> EncodedChar(r[i])
  {
    if bytes == [] then []
    else ['%', HexUpper(bytes[0] / 16), HexUpper(bytes[0] % 16)] + PercentBytes(bytes[1..])
  }

  function EncodeChar(c: char): (r: string)
    ensures Unreserved(c) ==> r == [c]
    ensures !Unreserved(c) ==> |r| >= 3 && r[0] == '%'
    ensures forall i :: 0 <= i < |r| ==> EncodedChar(r[i])
  {
    if Unreserved(c) then [c] else PercentBytes(Utf8(c))
  }

  /**
   * `urlencoding::encode`. Its output holds only unreserved characters and `%`, so an
   * encoded value can never contain the `&`, `=`, `?` or `#` that would end a query value.
   */
  function UrlEncode(s: string): (r: string)
    ensures |r| >= |s|
    ensures forall i :: 0 <= i < |r| ==> EncodedChar(r[i])
  {
    if s == [] then [] else EncodeChar(s[0]) + UrlEncode(s[1..])
  }

  /** A string made only of unreserved characters is its own encoding. */
  lemma {:induction false} UrlEncodeUnreserved(s: string)
    requires forall i :: 0 <= i < |s| ==> Unreserved(s[i])
    ensures UrlEncode(s) == s
  {
    if s != [] {
      UrlEncodeUnreserved(s[1..]);
    }
  }

  /**
   * Percent-decoding for text that is ASCII once decoded: `%XX` becomes the character
   * with byte value XX, which must be below 0x80; any other character stands for itself.
   */
  function DecodeAscii(s: string): (r: Option<string>)
    decreases |s|
  {
    if s == [] then Some([])
    else if s[0] == '%' then
      if |s| >= 3 && HexValue(s[1]).Some? && HexValue(s[2]).Some?
         && 16 * HexValue(s[1]).value + HexValue(s[2]).value < 0x80
      then
        match DecodeAscii(s[3..])
        case None => None
        case Some(rest) => Some([(16 * HexValue(s[1]).value + HexValue(s[2]).value) as char] + rest)
      else None
    else
      match DecodeAscii(s[1..])
      case None => None
      case Some(rest) => Some([s[0]] + rest)
  }

  lemma DecodeEncodedChar(c: char, rest: string)
    requires c as int < 0x80
    ensures DecodeAscii(EncodeChar(c) + rest) == (match DecodeAscii(rest) case None => None case Some(t) => Some([c] + t))
  {
    var e := EncodeChar(c) + rest;
    if Unreserved(c) {
      assert e[1..] == rest;
    } else {
      var b := c as int;
      assert Utf8(c) == [b];
      assert EncodeChar(c) == ['%', HexUpper(b / 16), HexUpper(b % 16)];
      HexValueOfHexUpper(b / 16);
      HexValueOfHexUpper(b % 16);
      assert e[3..] == rest;
      assert (16 * (b / 16) + b % 16) as char == c;
    }
  }

  /** Decoding an encoded ASCII string gives the string back. */
  lemma {:induction false} UrlEncodeRoundTrip(s: string)
    requires forall i :: 0 <= i < |s| ==> s[i] as int < 0x80
    ensures DecodeAscii(UrlEncode(s)) == Some(s)
  {
    if s != [] {
      UrlEncodeRoundTrip(s[1..]);
      DecodeEncodedChar(s[0], UrlEncode(s[1..]));
      assert [s[0]] + s[1..] == s;
    }
  }

  /** Distinct ASCII strings have distinct encodings. */
  lemma UrlEncodeInjective(s: string, t: string)
    requires forall i :: 0 <= i < |s| ==> s[i] as int < 0x80
    requires forall i :: 0 <= i < |t| ==> t[i] as int < 0x80
    ensures UrlEncode(s) == UrlEncode(t) <==> s == t
  {
    UrlEncodeRoundTrip(s);
    UrlEncodeRoundTrip(t);
  }

  // ---------------------------------------------------------------- authorization URL

  /**
   * The fixed parts of a provider's authorization URL: the endpoint, the query between
   * the redirect URI and the state, and what follows the state.
   */
  datatype AuthTemplate = AuthTemplate(endpoint: string, scope: string, tail: string)

  function AuthTemplateOf(provider: string): (r: Option<AuthTemplate>)
    ensures r.Some? <==> KnownProvider(provider)
  {
    if provider == "google" then
      Some(AuthTemplate("https://accounts.google.com/o/oauth2/v2/auth",
        "&response_type=code&scope=email+profile", "&access_type=offline"))
    else if provider == "facebook" then
      Some(AuthTemplate("https://www.facebook.com/v18.0/dialog/oauth", "&response_type=code&scope=email", ""))
    else if provider == "github" then
      Some(AuthTemplate("https://github.com/login/oauth/authorize", "&scope=user+user:email", ""))
    else if provider == "linkedin" then
      Some(AuthTemplate("https://www.linkedin.com/oauth/v2/authorization",
        "&response_type=code&scope=openid+profile+email", ""))
    else if provider == "microsoft" then
      Some(AuthTemplate("https://login.microsoftonline.com/common/oauth2/v2.0/authorize",
        "&response_type=code&scope=openid+profile+email+User.Read", ""))
    else None
  }

  const CLIENT_ID_PARAM: string := "?client_id="
  const REDIRECT_PARAM: string := "&redirect_uri="
  const STATE_PARAM: string := "&state="

  /** The URL built from a template, a client id, the callback URL and the state. */
  function AuthUrl(t: AuthTemplate, clientId: string, callback: string, state: string): string
  {
    t.endpoint + (CLIENT_ID_PARAM + clientId) + (REDIRECT_PARAM + UrlEncode(callback))
      + t.scope + (STATE_PARAM + UrlEncode(state)) + t.tail
  }

  /**
   * `build_auth_url`: a configuration failure is returned unchanged; otherwise the
   * provider's URL, with the callback URL and the state percent-encoded.
   */
  function BuildAuthUrl(settings: OAuthSettings, provider: string, state: string): (r: Result<string, OAuthError>)
    ensures ProviderConfig(settings, provider).Err? ==> r == Err(ProviderConfig(settings, provider).error)
    ensures ProviderConfig(settings, provider).Ok? ==> r.Ok?
  {
    match ProviderConfig(settings, provider)
    case Err(e) => Err(e)
    case Ok(keys) =>
      Ok(AuthUrl(AuthTemplateOf(provider).value, keys.0, CallbackUrl(settings, provider), state))
  }

  /**
   * Where the parameters sit in a URL built from a template: it starts with the endpoint and
   * the client id, the encoded callback URL follows `&redirect_uri=`, and it ends with the
   * encoded state and the template's tail.
   */
  lemma AuthUrlParts(t: AuthTemplate, clientId: string, callback: string, state: string)
    ensures var r := AuthUrl(t, clientId, callback, state);
      var head := t.endpoint + (CLIENT_ID_PARAM + clientId);
      var stateParam := STATE_PARAM + UrlEncode(state);
      && StartsWith(r, head)
      && OccursAt(r, REDIRECT_PARAM + UrlEncode(callback), |head|)
      && |stateParam| + |t.tail| <= |r|
      && OccursAt(r, stateParam, |r| - |t.tail| - |stateParam|)
      && r[|r| - |t.tail|..] == t.tail
  {
    var r := AuthUrl(t, clientId, callback, state);
    var head := t.endpoint + (CLIENT_ID_PARAM + clientId);
    var withRedirect := head + (REDIRECT_PARAM + UrlEncode(callback));
    var withScope := withRedirect + t.scope;
    var withState := withScope + (STATE_PARAM + UrlEncode(state));
    assert r == withState + t.tail;
    assert r[..|withState|] == withState;
    assert withState[..|withScope|] == withScope;
    assert withScope[..|withRedirect|] == withRedirect;
    assert withRedirect[..|head|] == head;
    assert r[..|head|] == head;
    assert r[|head|..|withRedirect|] == withRedirect[|head|..];
    assert r[|withScope|..|withState|] == withState[|withScope|..];
  }

  /** The layout of `AuthUrlParts`, for the URL `build_auth_url` returns. */
  lemma AuthUrlLayout(settings: OAuthSettings, provider: string, state: string)
    requires BuildAuthUrl(settings, provider, state).Ok?
    ensures var r := BuildAuthUrl(settings, provider, state).value;
      var t := AuthTemplateOf(provider).value;
      var head := t.endpoint + (CLIENT_ID_PARAM + KeysOf(settings, provider).value.clientId);
      var stateParam := STATE_PARAM + UrlEncode(state);
      && StartsWith(r, head)
      && OccursAt(r, REDIRECT_PARAM + UrlEncode(CallbackUrl(settings, provider)), |head|)
      && |stateParam| + |t.tail| <= |r|
      && OccursAt(r, stateParam, |r| - |t.tail| - |stateParam|)
      && r[|r| - |t.tail|..] == t.tail
  {
    var keys := ProviderConfig(settings, provider).value;
    AuthUrlParts(AuthTemplateOf(provider).value, keys.0, CallbackUrl(settings, provider), state);
  }

  /** A URL built from one template, client id and callback URL determines its encoded state. */
  lemma AuthUrlStateDetermined(t: AuthTemplate, clientId: string, callback: string, s1: string, s2: string)
    requires AuthUrl(t, clientId, callback, s1) == AuthUrl(t, clientId, callback, s2)
    ensures UrlEncode(s1) == UrlEncode(s2)
  {
    var r := AuthUrl(t, clientId, callback, s1);
    AuthUrlParts(t, clientId, callback, s1);
    AuthUrlParts(t, clientId, callback, s2);
    var lead := t.endpoint + (CLIENT_ID_PARAM + clientId) + (REDIRECT_PARAM + UrlEncode(callback)) + t.scope;
    var p1 := STATE_PARAM + UrlEncode(s1);
    var p2 := STATE_PARAM + UrlEncode(s2);
    assert |r| == |lead| + |p1| + |t.tail|;
    assert |r| == |lead| + |p2| + |t.tail|;
    assert p1 == p2;
    assert UrlEncode(s1) == p1[|STATE_PARAM|..];
  }

  /** For a given provider and settings, the URL determines the state: the callback can tell states apart. */
  lemma AuthUrlDeterminesState(settings: OAuthSettings, provider: string, s1: string, s2: string)
    requires BuildAuthUrl(settings, provider, s1).Ok?
    requires forall i :: 0 <= i < |s1| ==> s1[i] as int < 0x80
    requires forall i :: 0 <= i < |s2| ==> s2[i] as int < 0x80
    ensures BuildAuthUrl(settings, provider, s1) == BuildAuthUrl(settings, provider, s2) <==> s1 == s2
  {
    if BuildAuthUrl(settings, provider, s1) == BuildAuthUrl(settings, provider, s2) {
      var keys := ProviderConfig(settings, provider).value;
      AuthUrlStateDetermined(AuthTemplateOf(provider).value, keys.0, CallbackUrl(settings, provider), s1, s2);
      UrlEncodeInjective(s1, s2);
    }
  }

  // ---------------------------------------------------------------- user-info documents

  datatype OAuthUserInfo = OAuthUserInfo(
    provider: string, providerId: string, email: string, name: string, avatarUrl: Option<string>)

  datatype GoogleUser = GoogleUser(
    id: string, email: Option<string>, name: Option<string>,
    givenName: Option<string>, familyName: Option<string>, picture: Option<string>)

  datatype FacebookPictureData = FacebookPictureData(url: Option<string>)
  datatype FacebookPicture = FacebookPicture(data: Option<FacebookPictureData>)
  datatype FacebookUser = FacebookUser(
    id: string, email: Option<string>, name: Option<string>, picture: Option<FacebookPicture>)

  datatype GitHubUser = GitHubUser(id: int, login: string, email: Option<string>, avatarUrl: Option<string>)
  datatype GitHubEmail = GitHubEmail(email: string, primary: bool, verified: bool)

  datatype LinkedInUser = LinkedInUser(
    sub: Option<string>, email: Option<string>, name: Option<string>,
    givenName: Option<string>, familyName: Option<string>, picture: Option<string>)

  datatype MicrosoftUser = MicrosoftUser(
    id: string, displayName: Option<string>, givenName: Option<string>,
    mail: Option<string>, userPrincipalName: Option<string>)

  /** The document a provider's user-info endpoint returns, decoded. */
  datatype Profile =
    | GoogleProfile(google: GoogleUser)
    | FacebookProfile(facebook: FacebookUser)
    | GitHubProfile(github: GitHubUser)
    | LinkedInProfile(linkedin: LinkedInUser)
    | MicrosoftProfile(microsoft: MicrosoftUser)

  /** The document shape each provider's endpoint is decoded into. */
  predicate ProfileFor(provider: string, p: Profile) {
    match p
    case GoogleProfile(_) => provider == "google"
    case FacebookProfile(_) => provider == "facebook"
    case GitHubProfile(_) => provider == "github"
    case LinkedInProfile(_) => provider == "linkedin"
    case MicrosoftProfile(_) => provider == "microsoft"
  }

  /** `Option::or`: the first value present. */
  function OrElse<T>(a: Option<T>, b: Option<T>): (r: Option<T>)
    ensures r.Some? <==> a.Some? || b.Some?
    ensures a.Some? ==> r == a
    ensures a.None? ==> r == b
  {
    if a.Some? then a else b
  }

  /**
   * The Google and LinkedIn name: the `name` field when present, otherwise the given and
   * family names joined by a space and trimmed. A composed name never starts or ends with whitespace.
   */
  function FullName(name: Option<string>, givenName: Option<string>, familyName: Option<string>): (r: string)
    ensures name.Some? ==> r == name.value
    ensures name.None? ==> r == [] || (!IsWhitespace(r[0]) && !IsWhitespace(r[|r| - 1]))
  {
    match name
    case Some(n) => n
    case None => Trim(givenName.UnwrapOr("") + " " + familyName.UnwrapOr(""))
  }

  /** A name with no whitespace at either end. */
  predicate EdgeTrimmed(s: string) { |s| > 0 && !IsWhitespace(s[0]) && !IsWhitespace(s[|s| - 1]) }

  /** With no `name`, two trimmed name parts are joined with one space. */
  lemma FullNameJoins(given: string, family: string)
    requires EdgeTrimmed(given) && EdgeTrimmed(family)
    ensures FullName(None, Some(given), Some(family)) == given + " " + family
  {
    var s := given + " " + family;
    assert s[0] == given[0] && s[|s| - 1] == family[|family| - 1];
    TrimOfBlankFree(s);
  }

  /** With no `name` and no family name, the given name alone, without the joining space. */
  lemma FullNameGivenOnly(given: string)
    requires EdgeTrimmed(given)
    ensures FullName(None, Some(given), None) == given
  {
    var s := given + " ";
    assert given + " " + "" == s;
    assert TrimStart(s) == s;
    assert s[..|s| - 1] == given;
    assert TrimEnd(given) == given;
    assert TrimEnd(s) == given;
  }

  /** With no name parts at all, the name is empty. */
  lemma FullNameEmpty()
    ensures FullName(None, None, None) == ""
  {
    assert IsWhitespace(" "[0]);
    assert TrimStart(" ") == TrimStart(" "[1..]);
    assert " "[1..] == [];
  }

  function GoogleInfo(u: GoogleUser): OAuthUserInfo
  {
    OAuthUserInfo("google", u.id, u.email.UnwrapOr(""), FullName(u.name, u.givenName, u.familyName), u.picture)
  }

  /** The Facebook avatar: `picture.data.url`, present only when every level is present. */
  function FacebookAvatar(picture: Option<FacebookPicture>): (r: Option<string>)
    ensures r.Some? <==> picture.Some? && picture.value.data.Some? && picture.value.data.value.url.Some?
    ensures r.Some? ==> r.value == picture.value.data.value.url.value
  {
    match picture
    case None => None
    case Some(p) =>
      match p.data
      case None => None
      case Some(d) => d.url
  }

  function FacebookInfo(u: FacebookUser): OAuthUserInfo
  {
    OAuthUserInfo("facebook", u.id, u.email.UnwrapOr(""), u.name.UnwrapOr(""), FacebookAvatar(u.picture))
  }

  /** `i64::to_string`: an optional minus sign, then the decimal digits of the magnitude. */
  function IntToString(n: int): (r: string)
    ensures |r| > 0
    ensures n >= 0 ==> AllDigits(r) && DigitsValue(r) == n
    ensures n < 0 ==> r[0] == '-' && AllDigits(r[1..]) && DigitsValue(r[1..]) == -n
  {
    if n >= 0 then
      NatToStringRoundTrip(n);
      NatToString(n)
    else
      NatToStringRoundTrip(-n);
      assert ("-" + NatToString(-n))[1..] == NatToString(-n);
      "-" + NatToString(-n)
  }

  function PrimaryVerified(): GitHubEmail -> bool {
    (e: GitHubEmail) => e.primary && e.verified
  }

  /** Entry `i` is the first one both primary and verified. */
  predicate FirstPrimaryVerified(emails: seq<GitHubEmail>, i: int) {
    && 0 <= i < |emails| && emails[i].primary && emails[i].verified
    && forall k :: 0 <= k < i ==> !(emails[k].primary && emails[k].verified)
  }

  /** The GitHub fallback email: the first entry both primary and verified, or "". */
  function GitHubPrimaryEmail(emails: seq<GitHubEmail>): (r: string)
    ensures forall i :: FirstPrimaryVerified(emails, i) ==> r == emails[i].email
    ensures (forall i :: 0 <= i < |emails| ==> !(emails[i].primary && emails[i].verified)) ==> r == ""
  {
    match IndexWhere(emails, PrimaryVerified())
    case None => ""
    case Some(i) => emails[i].email
  }

  /**
   * The GitHub mapping. The profile's own email wins and the email list is not consulted; without
   * it, a failed fetch of the list is UserInfoFailed and a fetched list gives its primary verified entry.
   */
  function GitHubInfo(u: GitHubUser, emails: Result<seq<GitHubEmail>, string>): (r: Result<OAuthUserInfo, OAuthError>)
    ensures u.email.Some? ==> r.Ok? && r.value.email == u.email.value
    ensures u.email.None? && emails.Err? ==> r == Err(UserInfoFailed(emails.error))
    ensures u.email.None? && emails.Ok? ==> r.Ok? && r.value.email == GitHubPrimaryEmail(emails.value)
    ensures r.Ok? ==> (r.value.provider == "github" && r.value.providerId == IntToString(u.id)
      && r.value.name == u.login && r.value.avatarUrl == u.avatarUrl)
  {
    var info := OAuthUserInfo("github", IntToString(u.id), "", u.login, u.avatarUrl);
    match u.email
    case Some(e) => Ok(info.(email := e))
    case None =>
      match emails
      case Err(m) => Err(UserInfoFailed(m))
      case Ok(es) => Ok(info.(email := GitHubPrimaryEmail(es)))
  }

  function LinkedInInfo(u: LinkedInUser): OAuthUserInfo
  {
    OAuthUserInfo("linkedin", u.sub.UnwrapOr(""), u.email.UnwrapOr(""), FullName(u.name, u.givenName, u.familyName), u.picture)
  }

  /** Microsoft: the display name, else the given name; the mail, else the principal name; no avatar. */
  function MicrosoftInfo(u: MicrosoftUser): (r: OAuthUserInfo)
    ensures r.provider == "microsoft" && r.providerId == u.id && r.avatarUrl.None?
    ensures u.displayName.Some? ==> r.name == u.displayName.value
    ensures u.displayName.None? && u.givenName.Some? ==> r.name == u.givenName.value
    ensures u.displayName.None? && u.givenName.None? ==> r.name == ""
    ensures u.mail.Some? ==> r.email == u.mail.value
    ensures u.mail.None? && u.userPrincipalName.Some? ==> r.email == u.userPrincipalName.value
    ensures u.mail.None? && u.userPrincipalName.None? ==> r.email == ""
  {
    OAuthUserInfo("microsoft", u.id, OrElse(u.mail, u.userPrincipalName).UnwrapOr(""),
      OrElse(u.displayName, u.givenName).UnwrapOr(""), None)
  }

  /**
   * `fetch_user_info`: an unknown provider is UnknownProvider, a failed fetch or decode is
   * UserInfoFailed, and otherwise the provider's mapping. `githubEmails` is the email list
   * the GitHub branch fetches when the profile has no email.
   */
  function FetchUserInfo(provider: string, profile: Result<Profile, string>,
                         githubEmails: Result<seq<GitHubEmail>, string>): (r: Result<OAuthUserInfo, OAuthError>)
    requires KnownProvider(provider) && profile.Ok? ==> ProfileFor(provider, profile.value)
    ensures !KnownProvider(provider) ==> r == Err(UnknownProvider(provider))
    ensures KnownProvider(provider) && profile.Err? ==> r == Err(UserInfoFailed(profile.error))
    ensures r.Ok? ==> r.value.provider == provider
    ensures r.Err? ==> !r.error.InvalidState? && !r.error.TokenExchangeFailed? && !r.error.ProviderNotConfigured?
  {
    if !KnownProvider(provider) then Err(UnknownProvider(provider))
    else match profile
      case Err(m) => Err(UserInfoFailed(m))
      case Ok(p) =>
        match p
        case GoogleProfile(u) => Ok(GoogleInfo(u))
        case FacebookProfile(u) => Ok(FacebookInfo(u))
        case GitHubProfile(u) => GitHubInfo(u, githubEmails)
        case LinkedInProfile(u) => Ok(LinkedInInfo(u))
        case MicrosoftProfile(u) => Ok(MicrosoftInfo(u))
  }

  /** The email a profile itself carries: Microsoft's mail, else its principal name; the `email` field of the others. */
  function ProfileEmail(p: Profile): Option<string>
  {
    match p
    case GoogleProfile(u) => u.email
    case FacebookProfile(u) => u.email
    case GitHubProfile(u) => u.email
    case LinkedInProfile(u) => u.email
    case MicrosoftProfile(u) => OrElse(u.mail, u.userPrincipalName)
  }

  /**
   * Every provider reports the profile's own email when it has one. Without one, GitHub falls back
   * to the fetched list's primary verified address, and every other provider to the empty email.
   */
  lemma FetchedEmail(provider: string, p: Profile, githubEmails: Result<seq<GitHubEmail>, string>)
    requires ProfileFor(provider, p)
    ensures var r := FetchUserInfo(provider, Ok(p), githubEmails);
      && (ProfileEmail(p).Some? ==> r.Ok? && r.value.email == ProfileEmail(p).value)
      && (ProfileEmail(p).None? && !p.GitHubProfile? ==> r.Ok? && r.value.email == "")
      && (ProfileEmail(p).None? && p.GitHubProfile? && githubEmails.Ok? ==>
            r.Ok? && r.value.email == GitHubPrimaryEmail(githubEmails.value))
  {
  }

  /** The name field a profile carries: Microsoft's display name, GitHub's login, the `name` field of the others. */
  function ProfileName(p: Profile): Option<string>
  {
    match p
    case GoogleProfile(u) => u.name
    case FacebookProfile(u) => u.name
    case GitHubProfile(u) => Some(u.login)
    case LinkedInProfile(u) => u.name
    case MicrosoftProfile(u) => u.displayName
  }

  /** A profile with no name, given name or family name at all. */
  predicate NoNameParts(p: Profile)
  {
    match p
    case GoogleProfile(u) => u.name.None? && u.givenName.None? && u.familyName.None?
    case FacebookProfile(u) => u.name.None?
    case GitHubProfile(_) => false
    case LinkedInProfile(u) => u.name.None? && u.givenName.None? && u.familyName.None?
    case MicrosoftProfile(u) => u.displayName.None? && u.givenName.None?
  }

  /**
   * Every provider's own name field wins; a profile with no name parts at all gets the empty
   * name, never a stray space from joining absent given and family names.
   */
  lemma FetchedName(provider: string, p: Profile, githubEmails: Result<seq<GitHubEmail>, string>)
    requires ProfileFor(provider, p)
    ensures var r := FetchUserInfo(provider, Ok(p), githubEmails);
      && (ProfileName(p).Some? && !p.GitHubProfile? ==> r.Ok? && r.value.name == ProfileName(p).value)
      && (p.GitHubProfile? && r.Ok? ==> r.value.name == ProfileName(p).value)
      && (NoNameParts(p) ==> r.Ok? && r.value.name == "")
  {
    if NoNameParts(p) && (p.GoogleProfile? || p.LinkedInProfile?) {
      FullNameEmpty();
    }
  }

  /** The provider's own id for the user: GitHub's number in decimal, LinkedIn's `sub` or "", the `id` of the others. */
  function ProfileId(p: Profile): string
  {
    match p
    case GoogleProfile(u) => u.id
    case FacebookProfile(u) => u.id
    case GitHubProfile(u) => IntToString(u.id)
    case LinkedInProfile(u) => u.sub.UnwrapOr("")
    case MicrosoftProfile(u) => u.id
  }

  /** The avatar a profile carries: Google's and LinkedIn's `picture`, Facebook's nested url, GitHub's `avatar_url`, none for Microsoft. */
  function ProfileAvatar(p: Profile): Option<string>
  {
    match p
    case GoogleProfile(u) => u.picture
    case FacebookProfile(u) => FacebookAvatar(u.picture)
    case GitHubProfile(u) => u.avatarUrl
    case LinkedInProfile(u) => u.picture
    case MicrosoftProfile(_) => None
  }

  /**
   * Every fetched user carries the profile's own id and avatar. Only GitHub can fail once the
   * profile is decoded (its email list fetch); every other provider always succeeds.
   */
  lemma FetchedIdAndAvatar(provider: string, p: Profile, githubEmails: Result<seq<GitHubEmail>, string>)
    requires ProfileFor(provider, p)
    ensures var r := FetchUserInfo(provider, Ok(p), githubEmails);
      && (r.Ok? ==> r.value.providerId == ProfileId(p) && r.value.avatarUrl == ProfileAvatar(p))
      && (r.Err? ==> p.GitHubProfile? && p.github.email.None? && githubEmails.Err?)
  {
  }

  /**
   * `authenticate`: the provider configuration is checked first, then the token exchange
   * (`token` is its outcome: the access token or the failure text), then the user info.
   */
  function Authenticate(settings: OAuthSettings, provider: string, token: Result<string, string>,
                        profile: Result<Profile, string>,
                        githubEmails: Result<seq<GitHubEmail>, string>): (r: Result<OAuthUserInfo, OAuthError>)
    requires KnownProvider(provider) && profile.Ok? ==> ProfileFor(provider, profile.value)
    ensures ProviderConfig(settings, provider).Err? ==> r == Err(ProviderConfig(settings, provider).error)
    ensures ProviderConfig(settings, provider).Ok? && token.Err? ==> r == Err(TokenExchangeFailed(token.error))
    ensures (ProviderConfig(settings, provider).Ok? && token.Ok?)
      ==> r == FetchUserInfo(provider, profile, githubEmails)
    ensures r.Ok? ==> KnownProvider(provider) && r.value.provider == provider
  {
    match ProviderConfig(settings, provider)
    case Err(e) => Err(e)
    case Ok(_) =>
      match token
      case Err(m) => Err(TokenExchangeFailed(m))
      case Ok(_) => FetchUserInfo(provider, profile, githubEmails)
  }

  /**
   * The response status of a failed sign-in: a client error exactly when the provider is
   * unknown or not configured, a server error when the exchange or the user-info fetch fails.
   */
  lemma AuthenticateStatus(settings: OAuthSettings, provider: string, token: Result<string, string>,
                           profile: Result<Profile, string>, githubEmails: Result<seq<GitHubEmail>, string>)
    requires KnownProvider(provider) && profile.Ok? ==> ProfileFor(provider, profile.value)
    ensures var r := Authenticate(settings, provider, token, profile, githubEmails);
      r.Err? ==> (FromOAuth(r.error).BadRequest? <==> ProviderConfig(settings, provider).Err?)
  {
    var r := Authenticate(settings, provider, token, profile, githubEmails);
    if r.Err? && ProviderConfig(settings, provider).Ok? {
      assert KnownProvider(provider);
      assert r.error.TokenExchangeFailed? || r.error.UserInfoFailed?;
    }
  }
}
