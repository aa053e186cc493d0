/**
 * The token provider: reading the bearer token from the Authorization header, the
 * registry-then-expiry validation guards, binding the request identity and building
 * the authentication and the error body.
 */
module Provider {
  import opened Wrappers
  import opened AuthTypes

  const BearerPrefix: string := "Bearer "

  const ValidateMessage: string := "error validate token"

  // ---------------------------------------------------------------------------
  // Header parsing
  // ---------------------------------------------------------------------------

  /** `pat` occurs in `s` starting at index `i`. */
  predicate OccursAt(s: string, pat: string, i: nat) {
    i + |pat| <= |s| && s[i..i + |pat|] == pat
  }

  /** `pat` occurs nowhere in `s`. */
  predicate Free(s: string, pat: string) {
    forall i: nat :: i <= |s| ==> !OccursAt(s, pat, i)
  }

  /**
   * `s.replace(pat, "")`: scans left to right and drops every non-overlapping
   * occurrence of `pat`, resuming right after each one it drops.
   */
  function RemoveAll(s: string, pat: string): (r: string)
    requires |pat| > 0
    ensures |r| <= |s|
    decreases |s|
  {
    if |s| < |pat| then s
    else if s[..|pat|] == pat then RemoveAll(s[|pat|..], pat)
    else [s[0]] + RemoveAll(s[1..], pat)
  }

  /**
   * `extractToken`: null when the header is absent or empty, otherwise the header with
   * every occurrence of "Bearer " removed.
   */
  function ExtractToken(header: Option<string>): (token: Option<string>)
    ensures token.None? <==> !HasLength(header)
    ensures token.Some? ==> |token.value| <= |header.value|
  {
    if HasLength(header) then Some(RemoveAll(header.value, BearerPrefix)) else None
  }

  /** Occurrences in the tail are the occurrences in the whole string, one index further on. */
  lemma OccursAtTail(s: string, pat: string, i: nat)
    requires |s| > 0
    ensures OccursAt(s[1..], pat, i) <==> OccursAt(s, pat, i + 1)
  {
    if i + |pat| <= |s[1..]| {
      assert s[1..][i..i + |pat|] == s[i + 1..i + 1 + |pat|];
    }
  }

  /** Dropping a character that starts no occurrence keeps the rest occurrence-free. */
  lemma FreeTail(s: string, pat: string)
    requires |s| > 0 && Free(s, pat)
    ensures Free(s[1..], pat)
  {
    forall i: nat | i <= |s[1..]| ensures !OccursAt(s[1..], pat, i) {
      OccursAtTail(s, pat, i);
      assert !OccursAt(s, pat, i + 1);
    }
  }

  /** A string without any occurrence is returned unchanged. */
  lemma {:induction false} RemoveAllFree(s: string, pat: string)
    requires |pat| > 0 && Free(s, pat)
    ensures RemoveAll(s, pat) == s
    decreases |s|
  {
    if |s| >= |pat| {
      assert !OccursAt(s, pat, 0);
      FreeTail(s, pat);
      RemoveAllFree(s[1..], pat);
      assert [s[0]] + s[1..] == s;
    }
  }

  /**
   * One step of the scan: the text before the first occurrence is kept, that
   * occurrence is dropped, and the scan resumes right after it.
   */
  lemma {:induction false} RemoveAllFirstOccurrence(a: string, pat: string, b: string)
    requires |pat| > 0
    requires forall i: nat :: i < |a| ==> !OccursAt(a + pat + b, pat, i)
    ensures RemoveAll(a + pat + b, pat) == a + RemoveAll(b, pat)
    decreases |a|
  {
    var s := a + pat + b;
    if |a| == 0 {
      assert s[..|pat|] == pat && s[|pat|..] == b;
    } else {
      assert !OccursAt(s, pat, 0);
      assert s[1..] == a[1..] + pat + b;
      forall i: nat | i < |a[1..]| ensures !OccursAt(s[1..], pat, i) {
        OccursAtTail(s, pat, i);
        assert !OccursAt(s, pat, i + 1);
      }
      RemoveAllFirstOccurrence(a[1..], pat, b);
      assert RemoveAll(s, pat) == [s[0]] + RemoveAll(s[1..], pat);
      assert [a[0]] + a[1..] == a;
    }
  }

  /** A non-empty header that never mentions "Bearer " is itself the token. */
  lemma ExtractTokenWithoutPrefix(header: string)
    requires |header| > 0 && Free(header, BearerPrefix)
    ensures ExtractToken(Some(header)) == Some(header)
  {
    RemoveAllFree(header, BearerPrefix);
  }

  /** `"Bearer " + t` yields `t` when `t` itself never mentions "Bearer ". */
  lemma ExtractTokenStripsPrefix(t: string)
    requires Free(t, BearerPrefix)
    ensures ExtractToken(Some(BearerPrefix + t)) == Some(t)
  {
    var h := BearerPrefix + t;
    assert h[..|BearerPrefix|] == BearerPrefix;
    assert h[|BearerPrefix|..] == t;
    RemoveAllFree(t, BearerPrefix);
  }

  /** A bare "Bearer " header yields the empty token, which later counts as no token. */
  lemma ExtractTokenBarePrefix()
    ensures ExtractToken(Some(BearerPrefix)) == Some("")
    ensures !HasLength(ExtractToken(Some(BearerPrefix)))
  {
  }

  /** Every occurrence goes, not just a leading one: "Bearer aBearer b" yields "ab". */
  lemma ExtractTokenRemovesEveryOccurrence()
    ensures ExtractToken(Some("Bearer aBearer b")) == Some("ab")
  {
    var p := BearerPrefix;
    var s1 := "Bearer aBearer b";
    assert s1[..7] == p && s1[7..] == "aBearer b";
    var s2 := "aBearer b";
    assert s2[..7][0] != p[0];
    assert s2[1..] == "Bearer b";
    var s3 := "Bearer b";
    assert s3[..7] == p && s3[7..] == "b";
    assert RemoveAll(s3, p) == "b";
    assert RemoveAll(s2, p) == "ab";
  }

  /**
   * One pass only, so the token may still contain the prefix: "BeBearer arer " yields
   * "Bearer ", which a second extraction would reduce to "".
   */
  lemma ExtractTokenSinglePass()
    ensures ExtractToken(Some("BeBearer arer ")) == Some(BearerPrefix)
    ensures ExtractToken(ExtractToken(Some("BeBearer arer "))) == Some("")
  {
    var p := BearerPrefix;
    var t1 := "BeBearer arer ";
    assert t1[..7][2] != p[2];
    assert t1[1..] == "eBearer arer ";
    var t2 := "eBearer arer ";
    assert t2[..7][0] != p[0];
    assert t2[1..] == "Bearer arer ";
    var t3 := "Bearer arer ";
    assert t3[..7] == p && t3[7..] == "arer ";
    assert RemoveAll(t3, p) == "arer ";
    assert RemoveAll(t2, p) == "earer ";
    assert RemoveAll(t1, p) == "Bearer ";
    ExtractTokenBarePrefix();
  }

  // ---------------------------------------------------------------------------
  // Validation
  // ---------------------------------------------------------------------------

  /** The exceptions the provider throws. */
  datatype AuthError =
    | UnAuthenticated(message: string)   // UnAuthenticatedException
    | ExpiredJwt(message: string)        // io.jsonwebtoken.ExpiredJwtException
    | RegistryMiss(token: string)        // AccessRedisUnit.get on a token it does not hold

  /**
   * The verdict of `validateToken` against the tokens of the selected registry and the
   * expiry predicate; the reference definition that the guard sequence of
   * `TokenProvider.ValidateToken` is proved equal to.
   */
  function Verdict(token: Option<string>, registered: set<string>, expired: string -> bool): (o: Outcome<AuthError>)
    ensures o == Pass <==> !HasLength(token) || (token.value in registered && !expired(token.value))
    ensures o.Fail? ==> o.error == (if token.value !in registered then UnAuthenticated(ValidateMessage)
                                    else ExpiredJwt(ValidateMessage))
  {
    if !HasLength(token) then Pass
    else if token.value !in registered then Fail(UnAuthenticated(ValidateMessage))
    else if expired(token.value) then Fail(ExpiredJwt(ValidateMessage))
    else Pass
  }

  /**
   * The registry check comes before the expiry check: an unregistered token is
   * unauthenticated under every expiry predicate.
   */
  lemma UnregisteredRejectedWhateverExpiry(token: string, registered: set<string>, e1: string -> bool, e2: string -> bool)
    requires |token| > 0 && token !in registered
    ensures Verdict(Some(token), registered, e1) == Verdict(Some(token), registered, e2)
      == Fail(UnAuthenticated(ValidateMessage))
  {
  }

  // ---------------------------------------------------------------------------
  // Identity binding
  // ---------------------------------------------------------------------------

  /** An identity as bound to a request: the signed-in id and its role. */
  datatype Identity = Identity(id: string, role: Role)

  /**
   * What `setThreadLocal` binds: the anonymous identity for no token, otherwise the
   * access record stored under the token; a token the registry does not hold makes the
   * lookup throw.
   */
  function Resolve(token: Option<string>, access: map<string, AccessRedis>): (r: Result<Identity, AuthError>)
    ensures r.Failure? <==> HasLength(token) && token.value !in access
    ensures r.Failure? ==> r.error == RegistryMiss(token.value)
    ensures r.Success? && !HasLength(token) ==> r.value == Identity("", RoleAnonymous)
    ensures r.Success? && HasLength(token) ==>
      r.value.id == access[token.value].signId && r.value.role == access[token.value].role
  {
    if !HasLength(token) then Success(Identity("", RoleAnonymous))
    else if token.value in access then Success(Identity(access[token.value].signId, access[token.value].role))
    else Failure(RegistryMiss(token.value))
  }

  /**
   * Binding and access validation agree on which tokens are known: a token that passes
   * `validateAccessToken` always binds, and one the lookup misses is rejected as
   * unauthenticated, whatever its expiry. Binding itself never looks at expiry.
   */
  lemma BindingAgreesWithAccessValidation(token: Option<string>, access: map<string, AccessRedis>, expired: string -> bool)
    ensures Verdict(token, access.Keys, expired) == Pass ==> Resolve(token, access).Success?
    ensures Resolve(token, access).Failure? ==> Verdict(token, access.Keys, expired) == Fail(UnAuthenticated(ValidateMessage))
  {
  }

  /** Spring's authentication for a role: its privilege, "{noop}" and its key as the only authority. */
  function AuthenticationFor(role: Role): (a: Authentication)
    ensures a.principal == role.privilege && a.credentials == "{noop}"
    ensures |a.authorities| == 1 && a.authorities[0] == role.key
  {
    Authentication(role.privilege, "{noop}", [role.key])
  }

  /** The two thread-local slots `signedId` and `signedRole` of one request thread; null until set. */
  class RequestContext {
    var signedId: Option<string>
    var signedRole: Option<Role>

    constructor ()
      ensures signedId == None && signedRole == None
    {
      signedId, signedRole := None, None;
    }
  }

  /** `TokenProvider` over its collaborators: the two registries and the JWT expiry check. */
  class TokenProvider {
    /** The access registry: access token to its record. */
    const accessRegistry: map<string, AccessRedis>
    /** The refresh registry: the refresh tokens it holds. */
    const refreshRegistry: set<string>
    /** `JwtUtil.checkExpiration`. */
    const checkExpiration: string -> bool
    /** The request thread's identity slots. */
    const context: RequestContext

    constructor (accessRegistry: map<string, AccessRedis>, refreshRegistry: set<string>,
                 checkExpiration: string -> bool, context: RequestContext)
      ensures this.accessRegistry == accessRegistry && this.refreshRegistry == refreshRegistry
      ensures this.checkExpiration == checkExpiration && this.context == context
    {
      this.accessRegistry := accessRegistry;
      this.refreshRegistry := refreshRegistry;
      this.checkExpiration := checkExpiration;
      this.context := context;
    }

    /** The tokens of the registry `validateToken` selects. */
    function Registered(isAccess: bool): (tokens: set<string>) {
      if isAccess then accessRegistry.Keys else refreshRegistry
    }

    /** `validateToken`: the absent-token exit, the registry guard, then the expiry guard. */
    method ValidateToken(token: Option<string>, isAccess: bool) returns (o: Outcome<AuthError>)
      ensures !HasLength(token) ==> o == Pass
      ensures HasLength(token) && token.value !in Registered(isAccess) ==> o == Fail(UnAuthenticated(ValidateMessage))
      ensures HasLength(token) && token.value in Registered(isAccess) ==>
        o == (if checkExpiration(token.value) then Fail(ExpiredJwt(ValidateMessage)) else Pass)
      ensures o == Verdict(token, Registered(isAccess), checkExpiration)
    {
      if !HasLength(token) {
        return Pass;
      }
      var registered := if isAccess then token.value in accessRegistry else token.value in refreshRegistry;
      if !registered {
        return Fail(UnAuthenticated(ValidateMessage));
      }
      if checkExpiration(token.value) {
        return Fail(ExpiredJwt(ValidateMessage));
      }
      return Pass;
    }

    /** `validateAccessToken`: the verdict against the access registry alone. */
    method ValidateAccessToken(token: Option<string>) returns (o: Outcome<AuthError>)
      ensures o == Verdict(token, accessRegistry.Keys, checkExpiration)
    {
      o := ValidateToken(token, true);
    }

    /** `validateRefreshToken`: the verdict against the refresh registry alone. */
    method ValidateRefreshToken(token: Option<string>) returns (o: Outcome<AuthError>)
      ensures o == Verdict(token, refreshRegistry, checkExpiration)
    {
      o := ValidateToken(token, false);
    }

    /**
     * `setThreadLocal`: overwrites both slots, with the anonymous identity for no token
     * and with the access record's id and role otherwise; when the registry lookup throws,
     * neither slot is written.
     */
    method SetThreadLocal(accessToken: Option<string>) returns (o: Outcome<AuthError>)
      modifies context
      ensures !HasLength(accessToken) ==>
        o == Pass && context.signedId == Some("") && context.signedRole == Some(RoleAnonymous)
      ensures HasLength(accessToken) && accessToken.value in accessRegistry ==>
        o == Pass
        && context.signedId == Some(accessRegistry[accessToken.value].signId)
        && context.signedRole == Some(accessRegistry[accessToken.value].role)
      ensures HasLength(accessToken) && accessToken.value !in accessRegistry ==>
        o == Fail(RegistryMiss(accessToken.value)) && unchanged(context)
      ensures match Resolve(accessToken, accessRegistry)
        case Success(ident) => o == Pass && context.signedId == Some(ident.id) && context.signedRole == Some(ident.role)
        case Failure(e) => o == Fail(e) && unchanged(context)
    {
      var id := "";
      var role := RoleAnonymous;
      if HasLength(accessToken) {
        if accessToken.value !in accessRegistry {
          return Fail(RegistryMiss(accessToken.value));
        }
        var access := accessRegistry[accessToken.value];
        id := access.signId;
        role := access.role;
      }
      context.signedId := Some(id);
      context.signedRole := Some(role);
      o := Pass;
    }

    /**
     * `getAuthentication`: the authentication for the role bound to this request
     * (dereferencing an unset role is a NullPointerException, hence the precondition).
     */
    function GetAuthentication(): (a: Authentication)
      reads context
      requires context.signedRole.Some?
      ensures a.principal == context.signedRole.value.privilege
      ensures a.credentials == "{noop}"
      ensures a.authorities == [context.signedRole.value.key]
    {
      AuthenticationFor(context.signedRole.value)
    }

    /** `error`: the error body names the status's reason phrase and carries the entry's code and message. */
    function Error(exceptionData: ExceptionData): (r: ResponseData)
      ensures r.name == exceptionData.httpStatus.reasonPhrase
      ensures r.code == exceptionData.code && r.message == exceptionData.message
    {
      ResponseData(exceptionData.httpStatus.reasonPhrase, exceptionData.code, exceptionData.message)
    }
  }
}
