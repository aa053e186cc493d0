/**
 * The authentication filter: per request it extracts the token, binds the identity,
 * installs the authentication and hands over to the chain; any exception clears the
 * security context and answers with the catalog's authentication error.
 */
module Filter {
  import opened Wrappers
  import opened AuthTypes
  import opened Provider

  /** The part of the servlet request the filter reads. */
  datatype Request = Request(authorization: Option<string>)

  /** `SecurityContextHolder`'s context: the installed authentication, null once cleared. */
  class SecurityContextHolder {
    var authentication: Option<Authentication>

    constructor ()
      ensures authentication == None
    {
      authentication := None;
    }

    method SetAuthentication(a: Authentication)
      modifies this
      ensures authentication == Some(a)
    {
      authentication := Some(a);
    }

    method ClearContext()
      modifies this
      ensures authentication == None
    {
      authentication := None;
    }
  }

  /** What happened to a response, in order; a write records the security context in force. */
  datatype ResponseEvent =
    | BodyWritten(body: ResponseData, authentication: Option<Authentication>)
    | StatusSet(value: int)

  /**
   * The servlet response: the bodies written through its writer and its status, null
   * until set; `writerFails` is whether writing the body throws an IOException.
   */
  class Response {
    const writerFails: bool
    var written: seq<ResponseData>
    var status: Option<int>
    /** The writes and status changes so far, in order. */
    ghost var events: seq<ResponseEvent>

    constructor (writerFails: bool)
      ensures this.writerFails == writerFails && written == [] && status == None && events == []
    {
      this.writerFails := writerFails;
      written, status := [], None;
      events := [];
    }

    /**
     * `getWriter().write(body)` while `holder` is the ambient security context: false
     * when it throws, in which case nothing is written.
     */
    method Write(body: ResponseData, holder: SecurityContextHolder) returns (ok: bool)
      modifies this
      ensures ok == !writerFails
      ensures written == if ok then old(written) + [body] else old(written)
      ensures status == old(status)
      ensures events == if ok then old(events) + [BodyWritten(body, holder.authentication)] else old(events)
    {
      ok := !writerFails;
      if ok {
        written := written + [body];
        events := events + [BodyWritten(body, holder.authentication)];
      }
    }

    method SetStatus(value: int)
      modifies this
      ensures status == Some(value) && written == old(written)
      ensures events == old(events) + [StatusSet(value)]
    {
      status := Some(value);
      events := events + [StatusSet(value)];
    }
  }

  /** What a downstream handler can read when it runs: the installed authentication and the identity slots. */
  datatype Observed = Observed(authentication: Option<Authentication>, signedId: Option<string>, signedRole: Option<Role>)

  /** The rest of the filter chain; `fails` is whether the downstream handlers throw. */
  class FilterChain {
    const fails: bool
    var invocations: nat
    /** What each downstream invocation observed, in order. */
    ghost var seen: seq<Observed>

    constructor (fails: bool)
      ensures this.fails == fails && invocations == 0 && seen == []
    {
      this.fails := fails;
      invocations := 0;
      seen := [];
    }

    /**
     * `doFilter`, run while `holder` is the ambient security context and `context` the
     * thread's identity slots: one more downstream invocation; false when it throws.
     */
    method DoFilter(holder: SecurityContextHolder, context: RequestContext) returns (ok: bool)
      modifies this
      ensures invocations == old(invocations) + 1 && ok == !fails
      ensures seen == old(seen) + [Observed(holder.authentication, context.signedId, context.signedRole)]
    {
      invocations := invocations + 1;
      seen := seen + [Observed(holder.authentication, context.signedId, context.signedRole)];
      ok := !fails;
    }
  }

  class TokenAuthenticationFilter {
    const provider: TokenProvider
    const exceptionsData: ExceptionsData
    /** The ambient `SecurityContextHolder`. */
    const holder: SecurityContextHolder

    constructor (provider: TokenProvider, exceptionsData: ExceptionsData, holder: SecurityContextHolder)
      ensures this.provider == provider && this.exceptionsData == exceptionsData && this.holder == holder
    {
      this.provider := provider;
      this.exceptionsData := exceptionsData;
      this.holder := holder;
    }

    /**
     * `doFilterInternal`. It never calls `validateAccessToken` and never resets the
     * identity slots; it always returns normally.
     */
    method DoFilterInternal(request: Request, response: Response, chain: FilterChain)
      modifies provider.context, holder, response, chain
      // binding: the slots take the resolved identity, or stay as they were if the lookup throws
      ensures var bound := Resolve(ExtractToken(request.authorization), provider.accessRegistry);
        match bound
        case Success(ident) =>
          provider.context.signedId == Some(ident.id) && provider.context.signedRole == Some(ident.role)
        case Failure(_) =>
          unchanged(provider.context)
      // the chain runs exactly once after a successful binding, never otherwise, and it
      // runs after the identity is bound and its authentication installed
      ensures var bound := Resolve(ExtractToken(request.authorization), provider.accessRegistry);
        && chain.invocations == old(chain.invocations) + (if bound.Success? then 1 else 0)
        && chain.seen == old(chain.seen) + match bound
             case Success(ident) => [Observed(Some(AuthenticationFor(ident.role)), Some(ident.id), Some(ident.role))]
             case Failure(_) => []
      // success: the bound role's authentication stays installed and the response is untouched
      ensures var bound := Resolve(ExtractToken(request.authorization), provider.accessRegistry);
        bound.Success? && !chain.fails ==>
          && holder.authentication == Some(provider.GetAuthentication())
          && holder.authentication == Some(AuthenticationFor(bound.value.role))
          && response.written == old(response.written)
          && response.status == old(response.status)
          && response.events == old(response.events)
      // failure: context cleared, then the error body written unless the writer throws,
      // then the status set regardless
      ensures var bound := Resolve(ExtractToken(request.authorization), provider.accessRegistry);
        bound.Failure? || chain.fails ==>
          && holder.authentication == None
          && response.written == old(response.written)
               + (if response.writerFails then [] else [provider.Error(exceptionsData.error)])
          && response.status == Some(exceptionsData.error.httpStatus.value)
          && response.events == old(response.events)
               + (if response.writerFails then [] else [BodyWritten(provider.Error(exceptionsData.error), None)])
               + [StatusSet(exceptionsData.error.httpStatus.value)]
    {
      var accessToken := ExtractToken(request.authorization);
      var bound := provider.SetThreadLocal(accessToken);
      var failed := bound.Fail?;
      if !failed {
        holder.SetAuthentication(provider.GetAuthentication());
        var ok := chain.DoFilter(holder, provider.context);
        failed := !ok;
      }
      if failed {
        holder.ClearContext();
        var error := exceptionsData.error;
        var ok := response.Write(provider.Error(error), holder);
        response.SetStatus(error.httpStatus.value);
      }
    }
  }

  /**
   * Two requests served one after another on the same thread. The first binds "42";
   * the second presents a token the registry does not hold, is rejected with the
   * catalog's error, and leaves the first request's identity in the slots.
   */
  method SecondRequestSeesFirstIdentity(role: Role, error: ExceptionData, expired: string -> bool)
  {
    var context := new RequestContext();
    var provider := new TokenProvider(map["tok" := AccessRedis("42", role)], {}, expired, context);
    var holder := new SecurityContextHolder();
    var filter := new TokenAuthenticationFilter(provider, ExceptionsData(error), holder);

    ExtractTokenStripsPrefix("tok");
    var first := new Response(false);
    var firstChain := new FilterChain(false);
    filter.DoFilterInternal(Request(Some(BearerPrefix + "tok")), first, firstChain);
    assert context.signedId == Some("42") && context.signedRole == Some(role);
    assert holder.authentication == Some(AuthenticationFor(role));
    assert first.written == [] && first.status == None && firstChain.invocations == 1;

    ExtractTokenStripsPrefix("bogus");
    var second := new Response(false);
    var secondChain := new FilterChain(false);
    filter.DoFilterInternal(Request(Some(BearerPrefix + "bogus")), second, secondChain);
    assert holder.authentication == None && secondChain.invocations == 0;
    assert second.written == [ResponseData(error.httpStatus.reasonPhrase, error.code, error.message)];
    assert second.status == Some(error.httpStatus.value);
    assert context.signedId == Some("42") && context.signedRole == Some(role);
  }
}
