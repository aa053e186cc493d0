# Request authentication for a Spring REST backend, modelled in Dafny

This project models the request-authentication layer of the `run.freshr` backend:

- **Token provider** (`token_provider.dfy`, module `Provider`). It reads the bearer token from the
  `Authorization` header. It validates a token against the access or the refresh registry and then
  against the JWT expiry check. It binds the request identity (`signedId`, `signedRole`) with
  anonymous defaults. It also builds the Spring authentication and the error body.
- **Authentication filter** (`token_authentication_filter.dfy`, module `Filter`). One pass runs
  extract, bind, install the authentication, then the rest of the chain. Any exception clears the
  security context, writes the catalog's authentication error and sets its HTTP status. A failing
  writer is swallowed.
- **Controller logging aspect** (`log_aspect.dfy`, module `Logging`). It builds the fixed-width
  box it logs around every controller call, then calls `proceed` exactly once.

`auth_types.dfy` holds the records: role, access record, error-catalog entry, error body and
authentication. `wrappers.dfy` holds `Option`, `Result` and `Outcome`, which stand for Java's
nulls and exceptions.

The state the source changes in place is modelled as classes:

- the two thread-local slots are `Provider.RequestContext`;
- Spring's security context is `Filter.SecurityContextHolder`;
- the servlet response is `Filter.Response`: bodies written, status, and the ordered log of
  writes and status changes, each write with the security context in force;
- the downstream chain is `Filter.FilterChain`: how often it ran, and what each run could see
  (the installed authentication and the identity slots);
- the intercepted controller call is `Logging.JoinPoint` (how often `proceed` ran).

The places where things can fail are inputs: `Response.writerFails`, `FilterChain.fails` and
the contents of the access registry: a lookup of a token the registry does not hold is modelled as
throwing. A lookup that returned null instead would also throw, at TokenProvider.java:154, before
either slot is written at lines 158-159.

The source itself suggests a stricter intent in two places. The constant `BEARER_PREFIX` reads as a
prefix to strip. The identity thread-locals are set on every request but never removed. In both
places the model follows what the code does:

- `extractToken` removes every occurrence of `"Bearer "` in one left-to-right pass, not
  just a leading prefix (`ExtractTokenRemovesEveryOccurrence`). The pass is not idempotent
  (`ExtractTokenSinglePass`). A bare `"Bearer "` header yields an empty token, which then binds
  the anonymous identity (`ExtractTokenBarePrefix`).
- The filter never calls `validateAccessToken`. A token present in the access registry
  therefore binds its identity whether or not it has expired. An unregistered token fails as
  the registry lookup in `setThreadLocal`, not as `UnAuthenticated`.
- Nothing clears `signedId` or `signedRole`. After a request rejected at the registry lookup, the slots
  still hold whatever an earlier request on the same thread bound. After one rejected by the chain, they
  keep that request's own identity. `Filter.SecondRequestSeesFirstIdentity` walks through
  such a pair of requests.

## Model

| member | source | states |
|---|---|---|
| `Provider.RemoveAll` | src/main/java/run/freshr/common/security/TokenProvider.java:87 | `String.replace(pat, "")` drops occurrences left to right and never lengthens the string |
| `Provider.ExtractToken` | src/main/java/run/freshr/common/security/TokenProvider.java:84-88 | no token exactly when the header is absent or empty; otherwise the header with every "Bearer " removed, never longer than the header |
| `Provider.RemoveAllFirstOccurrence` | src/main/java/run/freshr/common/security/TokenProvider.java:87 | one step of the scan, for all inputs: the text before the first occurrence is kept, that occurrence is dropped, and the scan resumes after it |
| `Provider.RemoveAllFree` | src/main/java/run/freshr/common/security/TokenProvider.java:87 | a string in which the pattern never occurs is returned unchanged |
| `Provider.ExtractTokenWithoutPrefix` | src/main/java/run/freshr/common/security/TokenProvider.java:84-88 | a non-empty header that never mentions "Bearer " is itself the token |
| `Provider.ExtractTokenStripsPrefix` | src/main/java/run/freshr/common/security/TokenProvider.java:84-88 | "Bearer " + t yields t whenever t never mentions "Bearer " |
| `Provider.ExtractTokenBarePrefix` | src/main/java/run/freshr/common/security/TokenProvider.java:84-88 | the header "Bearer " yields the empty token, which counts as no token |
| `Provider.ExtractTokenRemovesEveryOccurrence` | src/main/java/run/freshr/common/security/TokenProvider.java:87 | an inner "Bearer " is removed too: "Bearer aBearer b" yields "ab" |
| `Provider.ExtractTokenSinglePass` | src/main/java/run/freshr/common/security/TokenProvider.java:87 | one pass only: "BeBearer arer " yields "Bearer ", and extracting again gives "" |
| `AuthTypes.HasLength` | src/main/java/run/freshr/common/security/TokenProvider.java:124 | Spring's `hasLength` holds exactly when the value is neither null nor the empty string |
| `Provider.Verdict` | src/main/java/run/freshr/common/security/TokenProvider.java:123-137 | the reference verdict: passes exactly when the token is absent or empty, or registered and not expired; a rejection is UnAuthenticated for an unregistered token, ExpiredJwt otherwise |
| `Provider.UnregisteredRejectedWhateverExpiry` | src/main/java/run/freshr/common/security/TokenProvider.java:128-136 | the registry check comes first: an unregistered token is UnAuthenticated under every expiry predicate |
| `Provider.TokenProvider.ValidateToken` | src/main/java/run/freshr/common/security/TokenProvider.java:123-137 | returns normally for no token; UnAuthenticated when it is missing from the selected registry; ExpiredJwt exactly when a registered token has expired, else returns normally |
| `Provider.TokenProvider.ValidateAccessToken` | src/main/java/run/freshr/common/security/TokenProvider.java:98-100 | the verdict depends on the access registry only |
| `Provider.TokenProvider.ValidateRefreshToken` | src/main/java/run/freshr/common/security/TokenProvider.java:110-112 | the verdict depends on the refresh registry only |
| `Provider.Resolve` | src/main/java/run/freshr/common/security/TokenProvider.java:147-156 | the identity bound for a token: anonymous with id "" for no token, the access record's id and role for a held token, a lookup failure exactly when a non-empty token is not held |
| `Provider.BindingAgreesWithAccessValidation` | src/main/java/run/freshr/common/security/TokenProvider.java:123-156 | a token that passes access validation always binds, and a token whose lookup fails is rejected as UnAuthenticated whatever its expiry |
| `Provider.TokenProvider.SetThreadLocal` | src/main/java/run/freshr/common/security/TokenProvider.java:147-160 | writes both slots: "" and the anonymous role for no token, else the access record's id and role; a lookup miss throws and writes neither |
| `Provider.AuthenticationFor` | src/main/java/run/freshr/common/security/TokenProvider.java:173-177 | the principal is the role's privilege, the credentials are "{noop}", and the role's key is the only authority |
| `Provider.TokenProvider.GetAuthentication` | src/main/java/run/freshr/common/security/TokenProvider.java:170-178 | the same three facts for the role currently bound in `signedRole` |
| `Provider.TokenProvider.Error` | src/main/java/run/freshr/common/security/TokenProvider.java:190-197 | the body's name is the status reason phrase; its code and message are the entry's |
| `Filter.SecurityContextHolder.SetAuthentication` | src/main/java/run/freshr/common/security/TokenAuthenticationFilter.java:58 | installs the given authentication |
| `Filter.SecurityContextHolder.ClearContext` | src/main/java/run/freshr/common/security/TokenAuthenticationFilter.java:70 | leaves no authentication installed |
| `Filter.Response.Write` | src/main/java/run/freshr/common/security/TokenAuthenticationFilter.java:74-81 | appends the body unless the writer throws, in which case nothing is written; logs the write with the security context in force; the status is untouched |
| `Filter.Response.SetStatus` | src/main/java/run/freshr/common/security/TokenAuthenticationFilter.java:83 | sets the status, logs it after any earlier write, and leaves the body alone |
| `Filter.FilterChain.DoFilter` | src/main/java/run/freshr/common/security/TokenAuthenticationFilter.java:63 | one more downstream invocation, recording the authentication and identity slots it could see, and reporting whether it threw |
| `Filter.TokenAuthenticationFilter.DoFilterInternal` | src/main/java/run/freshr/common/security/TokenAuthenticationFilter.java:49-87 | the chain runs once exactly when binding succeeded, and it sees the bound id and role and the authentication for that role already installed. On success that authentication stays installed and the response is untouched. On any failure the context is cleared before the catalog error body is written (unless the writer throws), and the status is set after that in every case. The identity slots are never reset |
| `Logging.Max3` | src/main/java/run/freshr/common/aspect/LogAspect.java:45-48 | the result is one of the three values and at least each of them |
| `Logging.BoxWidth` | src/main/java/run/freshr/common/aspect/LogAspect.java:45-48 | `max` is the length of the longest of the three strings |
| `Logging.Repeat` | src/main/java/run/freshr/common/aspect/LogAspect.java:49 | `"-".repeat(max)` has length `max` and holds only that character |
| `Logging.PadRight` | src/main/java/run/freshr/common/aspect/LogAspect.java:50-52 | `%-Ns` padding starts with the string, is filled with spaces and is as long as the larger of N and the string |
| `Logging.RoleName` | src/main/java/run/freshr/common/aspect/LogAspect.java:43 | the bound role's key, or the anonymous role's key when nothing is bound |
| `Logging.IdName` | src/main/java/run/freshr/common/aspect/LogAspect.java:44 | the bound id, or "" when nothing is bound |
| `Logging.Box` | src/main/java/run/freshr/common/aspect/LogAspect.java:49-60 | five lines, all `max + 14` wide; each labelled line starts with its label and field, continues with spaces and ends in " \|"; the top and bottom borders are equal: `+---------+-`, then dashes, then "-+" |
| `Logging.BoxWidthPositive` | src/main/java/run/freshr/common/aspect/LogAspect.java:42-48 | `max` is at least 1, because the proceed name always contains "."; so the `%-Ns` format never gets a zero width |
| `Logging.FieldsFillWidth` | src/main/java/run/freshr/common/aspect/LogAspect.java:49-52 | the outline is `max` dashes; each padded field is exactly `max` long, starts with its string and is filled with spaces after it |
| `Logging.JoinPoint.Proceed` | src/main/java/run/freshr/common/aspect/LogAspect.java:62 | one more run of the intercepted call, yielding its outcome |
| `Logging.ControllerLogging` | src/main/java/run/freshr/common/aspect/LogAspect.java:39-63 | logs the box for `className.methodName` and the bound role and id; reads the slots without changing them; calls `proceed` exactly once and returns its outcome unchanged |

## Left out

- Token issuance (`generateAccessToken`, `generateRefreshToken`, TokenProvider.java:58-73) is not modelled. It is JWT signing and the clock, inside `JwtUtil`, which is not part of this model.
- `JwtUtil.checkExpiration` is the field `TokenProvider.checkExpiration`, an arbitrary `string -> bool`. Its behaviour on malformed tokens (it may throw) is not modelled.
- The Redis registries are an immutable map (access) and set (refresh) for the duration of a request. TTL eviction, concurrent writes and an unreachable store are not modelled. `AccessRedisUnit.get` on a token it does not hold is modelled as the failure `RegistryMiss`.
- Jackson serialisation in `error` is modelled as building the `ResponseData` record. The JSON text is not modelled. A `JsonProcessingException` is an `IOException`, so it would be swallowed at TokenAuthenticationFilter.java:76. Its effect is the same as `writerFails`: nothing is written, and the status is still set.
- `Role` is a record of name, authority key and privilege. The enumeration's constants live outside this model. The key and privilege strings of `RoleAnonymous` are placeholders, and no property depends on them.
- `Provider.TokenProvider.GetAuthentication`: dereferencing an unset `signedRole` throws a `NullPointerException`; here it is a precondition instead of an error outcome. The filter calls it only after a successful binding.
- Null fields in an access record are not modelled. A null role would make `getAuthentication` throw at TokenProvider.java:174, called from TokenAuthenticationFilter.java:58, after the slots already hold the record's id and the null role.
- The downstream filter chain is modelled as an invocation count, what each invocation could observe, and whether it throws. What the handlers do to the response or the context is not modelled.
- Only `Exception` is caught at TokenAuthenticationFilter.java:64; a thrown `Error` escaping the filter is not modelled.
- Logging calls are I/O and are not modelled. For the aspect, the box it would log is returned instead.
- `Logging.PadRight`, `Logging.BoxWidth`: lengths count Dafny characters (Unicode scalar values); Java's `String.length` counts UTF-16 code units, so the two differ for characters outside the Basic Multilingual Plane.
- Thread-local storage across concurrent requests is not modelled: one `RequestContext` stands for one request thread.
- `RestUtilSecurityAware`, `ElasticsearchAuditorAwareImpl` and `PersistenceConfiguration` are not modelled. They are static getters, an account lookup through a static handle, and dependency-injection wiring.
