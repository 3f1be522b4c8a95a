/**
 * The API client's credential and response-code decisions: which OAuth grant runs and when
 * (checkCredentials), how an HTTP status is classified (checkResponseCode), and what a
 * program request yields (getProgram).
 */
module Credentials {
  import opened Wrappers
  import opened Text
  import opened Model

  const HTTP_OK := 200
  const HTTP_UNAUTHORIZED := 401
  const HTTP_NOT_FOUND := 404

  /**
   * What the token endpoint answers when a grant runs: the access token it issued, or a
   * CommunicationException (a non-success status or an I/O failure).
   */
  datatype GrantResult = Granted(accessToken: string) | GrantFailed

  /**
   * The grant checkCredentials runs: the authorization code grant (section 4.1 of RFC 6749)
   * for the simulator, the refresh token grant (section 6 of RFC 6749) otherwise.
   */
  datatype Flow = NoFlow | AuthorizationCode | RefreshTokenGrant | MissingRefreshToken

  /** How checkCredentials ends. */
  datatype CredentialOutcome = Ready | ConfigurationError | CommunicationError

  /** The token after checkCredentials and how the call ended. */
  datatype CredentialStep = CredentialStep(token: Option<string>, outcome: CredentialOutcome)

  /** Which grant, if any, checkCredentials runs for the client's current credentials. */
  function ChooseFlow(simulated: bool, refreshToken: Option<string>, token: Option<string>): (f: Flow)
    ensures f == MissingRefreshToken <==> !simulated && IsEmpty(refreshToken)
    ensures f == AuthorizationCode <==> simulated && IsEmpty(token)
    ensures f == RefreshTokenGrant <==> !simulated && !IsEmpty(refreshToken) && IsEmpty(token)
    ensures f == NoFlow <==> !IsEmpty(token) && (simulated || !IsEmpty(refreshToken))
  {
    if simulated then
      if IsEmpty(token) then AuthorizationCode else NoFlow
    else if IsEmpty(refreshToken) then MissingRefreshToken
    else if IsEmpty(token) then RefreshTokenGrant
    else NoFlow
  }

  /**
   * checkCredentials: a missing refresh token outside the simulator is a configuration error
   * that leaves the token alone; a grant runs only for an empty token, and its failure resets
   * the token to null.
   */
  function CheckCredentials(simulated: bool, refreshToken: Option<string>, token: Option<string>, grant: GrantResult): (r: CredentialStep)
    ensures r.outcome == ConfigurationError <==> !simulated && IsEmpty(refreshToken)
    ensures r.outcome == ConfigurationError ==> r.token == token
    ensures !IsEmpty(token) && r.outcome != ConfigurationError ==> r == CredentialStep(token, Ready)
    ensures r.outcome == CommunicationError <==> IsEmpty(token) && (simulated || !IsEmpty(refreshToken)) && grant.GrantFailed?
    ensures r.outcome == CommunicationError ==> r.token.None?
    ensures r.outcome == Ready && IsEmpty(token) ==> r.token == Some(grant.accessToken)
  {
    match ChooseFlow(simulated, refreshToken, token)
    case MissingRefreshToken => CredentialStep(token, ConfigurationError)
    case NoFlow => CredentialStep(token, Ready)
    case _ =>
      if grant.Granted? then CredentialStep(Some(grant.accessToken), Ready)
      else CredentialStep(None, CommunicationError)
  }

  /**
   * Once checkCredentials has left a non-empty token, a second call runs no grant: the
   * result does not depend on what the token endpoint would answer.
   */
  lemma CheckCredentialsStable(simulated: bool, refreshToken: Option<string>, token: Option<string>, g1: GrantResult, g2: GrantResult)
    requires CheckCredentials(simulated, refreshToken, token, g1).outcome == Ready
    requires !IsEmpty(CheckCredentials(simulated, refreshToken, token, g1).token)
    ensures var r := CheckCredentials(simulated, refreshToken, token, g1);
      CheckCredentials(simulated, refreshToken, r.token, g2) == r
  {
  }

  /** How checkResponseCode treats a status, given the statuses the caller accepts. */
  datatype Classification = Accepted | InvalidToken | Failure(code: int)

  function ClassifyResponse(desired: seq<int>, code: int): (c: Classification)
    ensures c == InvalidToken <==> HTTP_UNAUTHORIZED !in desired && code == HTTP_UNAUTHORIZED
    ensures c == Accepted <==> code in desired
    ensures c.Failure? <==> code !in desired && code != HTTP_UNAUTHORIZED
    ensures c.Failure? ==> c.code == code
  {
    if HTTP_UNAUTHORIZED !in desired && code == HTTP_UNAUTHORIZED then InvalidToken
    else if code !in desired then Failure(code)
    else Accepted
  }

  /** checkResponseCode clears the cached token exactly when it signals an invalid token. */
  function TokenAfterResponse(desired: seq<int>, code: int, token: Option<string>): (t: Option<string>)
    ensures ClassifyResponse(desired, code) == InvalidToken ==> t.None?
    ensures ClassifyResponse(desired, code) != InvalidToken ==> t == token
  {
    if ClassifyResponse(desired, code) == InvalidToken then None else token
  }

  /** What the HTTP exchange of getProgram yields: an I/O failure, or a status and its payload. */
  datatype Reply = IoFailure | Reply(code: int, body: JsonProgram)

  /**
   * One attempt of getProgram. `Retry` stands for the recursive call the Java code makes
   * after an invalid token, `Thrown` for a checked exception leaving the method and
   * `Malformed` for a payload mapToProgram cannot read.
   */
  datatype ProgramResult =
    | Found(program: Program)
    | NoProgram
    | Retry
    | Thrown(error: CredentialOutcome)
    | Malformed

  const PROGRAM_CODES: seq<int> := [HTTP_OK, HTTP_NOT_FOUND]

  /**
   * getProgram after checkCredentials has ended with `credentials`: 200 yields the mapped
   * program, 404 and an I/O failure yield null, 401 asks for a retry, any other status is a
   * CommunicationException.
   */
  function GetProgramAttempt(credentials: CredentialOutcome, reply: Reply): (r: ProgramResult)
    ensures credentials != Ready ==> r == Thrown(credentials)
    ensures r.Found? <==> credentials == Ready && reply.Reply? && reply.code == HTTP_OK && ProgramOf(reply.body).Some?
    ensures r.Found? ==> r.program == ProgramOf(reply.body).value
    ensures r == NoProgram <==> credentials == Ready && (reply.IoFailure? || reply.code == HTTP_NOT_FOUND)
    ensures r == Retry <==> credentials == Ready && reply.Reply? && reply.code == HTTP_UNAUTHORIZED
    ensures r == Thrown(CommunicationError) <==>
      credentials == CommunicationError
      || (credentials == Ready && reply.Reply? && reply.code !in {HTTP_OK, HTTP_NOT_FOUND, HTTP_UNAUTHORIZED})
  {
    if credentials != Ready then Thrown(credentials)
    else if reply.IoFailure? then NoProgram
    else match ClassifyResponse(PROGRAM_CODES, reply.code)
      case InvalidToken => Retry
      case Failure(_) => Thrown(CommunicationError)
      case Accepted =>
        if reply.code == HTTP_NOT_FOUND then NoProgram
        else if ProgramOf(reply.body).Some? then Found(ProgramOf(reply.body).value)
        else Malformed
  }

  /** isRemoteControlStartAllowed / isRemoteControlActive: a status is set iff its value is "true" ignoring case. */
  function IsRemoteFlag(data: Option<Data>): bool
  {
    data.Some? && data.value.value.Some? && EqualsIgnoreCase(data.value.value.value, "true")
  }

  /** The remote-control flags agree with Data.getValueAsBoolean on a fetched status. */
  lemma IsRemoteFlagIsBoolValue(data: Data)
    ensures IsRemoteFlag(Some(data)) == data.ValueAsBoolean()
  {
  }
}
