/** The records the authentication layer passes around. */
module AuthTypes {
  import opened Wrappers

  /**
   * An account role: its enum constant name, the authority key handed to Spring Security
   * and the privilege descriptor used as the principal.
   */
  datatype Role = Role(name: string, key: string, privilege: string)

  /** The role bound to a request that presents no token. */
  const RoleAnonymous: Role := Role("ROLE_ANONYMOUS", "ROLE_ANONYMOUS", "ANONYMOUS")

  /** The access-registry record stored under an issued access token. */
  datatype AccessRedis = AccessRedis(signId: string, role: Role)

  /** An HTTP status: its numeric value and its reason phrase. */
  datatype HttpStatus = HttpStatus(value: int, reasonPhrase: string)

  /** One entry of the error catalog. */
  datatype ExceptionData = ExceptionData(httpStatus: HttpStatus, code: string, message: string)

  /** The process-wide error catalog; `error` is its generic authentication-error entry. */
  datatype ExceptionsData = ExceptionsData(error: ExceptionData)

  /** The error body written to a rejected request's response. */
  datatype ResponseData = ResponseData(name: string, code: string, message: string)

  /** Spring's `UsernamePasswordAuthenticationToken(principal, credentials, authorities)`. */
  datatype Authentication = Authentication(principal: string, credentials: string, authorities: seq<string>)

  /** Spring's `StringUtils.hasLength`: not null and not empty. */
  function HasLength(s: Option<string>): (b: bool)
    ensures b <==> s != None && s != Some("")
  {
    s.Some? && |s.value| > 0
  }
}
