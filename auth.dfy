/**
 * The interactive-authentication payload (src/connection.rs,
 * `InteractiveAuthInfo::as_auth_data`), used when a privileged request such
 * as device deletion must be re-proved with the user's password.
 */
module Auth {
  import opened Wrappers

  /** The part of JSON the payload uses. */
  datatype Json = JString(str: string) | JObject(fields: map<string, Json>)

  datatype InteractiveAuthInfo = InteractiveAuthInfo(user: string, password: string, session: Option<string>)

  /** `AuthData::DirectRequest`. */
  datatype AuthData = DirectRequest(kind: string, authParameters: map<string, Json>, session: Option<string>)

  const PASSWORD_LOGIN_KIND: string := "m.login.password"
  const USER_IDENTIFIER_TYPE: string := "m.id.user"

  /** The keys of a password request: the structured identifier, the
      password, and the bare user name some servers still expect. */
  const AUTH_PARAMETER_KEYS: set<string> := {"identifier", "password", "user"}

  function UserIdentifier(user: string): Json
  {
    JObject(map["type" := JString(USER_IDENTIFIER_TYPE), "user" := JString(user)])
  }

  /** The user named by the structured identifier, if it is a user identifier. */
  function IdentifiedUser(auth: AuthData): Option<string>
  {
    if "identifier" in auth.authParameters then
      match auth.authParameters["identifier"]
      case JObject(fields) =>
        if fields.Keys == {"type", "user"} && fields["type"] == JString(USER_IDENTIFIER_TYPE) && fields["user"].JString?
        then Some(fields["user"].str) else None
      case JString(_) => None
    else None
  }

  /** A string-valued top-level parameter. */
  function StringParameter(auth: AuthData, key: string): Option<string>
  {
    if key in auth.authParameters && auth.authParameters[key].JString? then Some(auth.authParameters[key].str) else None
  }

  /** What a homeserver reads out of a password request: the credentials, when
      the request has exactly the three keys and its two user fields agree. */
  function Credentials(auth: AuthData): Option<InteractiveAuthInfo>
  {
    if auth.kind != PASSWORD_LOGIN_KIND || auth.authParameters.Keys != AUTH_PARAMETER_KEYS then None
    else match (IdentifiedUser(auth), StringParameter(auth, "password"), StringParameter(auth, "user"))
      case (Some(u), Some(pw), Some(u')) =>
        if u == u' then Some(InteractiveAuthInfo(u, pw, auth.session)) else None
      case _ => None
  }

  /** `as_auth_data`: a password request with exactly the three keys, both
      user fields naming the user, and the session passed through. */
  function AsAuthData(info: InteractiveAuthInfo): (r: AuthData)
    ensures r.kind == PASSWORD_LOGIN_KIND
    ensures r.authParameters.Keys == AUTH_PARAMETER_KEYS
    ensures IdentifiedUser(r) == Some(info.user) && StringParameter(r, "user") == Some(info.user)
    ensures StringParameter(r, "password") == Some(info.password)
    ensures r.session == info.session
  {
    var parameters := map[
      "identifier" := UserIdentifier(info.user),
      "password" := JString(info.password),
      "user" := JString(info.user)];
    DirectRequest(PASSWORD_LOGIN_KIND, parameters, info.session)
  }

  /** The payload carries the credentials it was built from. */
  lemma CredentialsOfAuthData(info: InteractiveAuthInfo)
    ensures Credentials(AsAuthData(info)) == Some(info)
  {
  }

  /** Conversely, every request a homeserver reads credentials from is the
      payload built from those credentials. */
  lemma {:induction false} AuthDataOfCredentials(auth: AuthData, info: InteractiveAuthInfo)
    requires Credentials(auth) == Some(info)
    ensures auth == AsAuthData(info)
  {
    var built := AsAuthData(info);
    var id := auth.authParameters["identifier"].fields;
    assert id == UserIdentifier(info.user).fields;
    assert auth.authParameters["identifier"] == built.authParameters["identifier"];
    assert auth.authParameters == built.authParameters;
  }
}
