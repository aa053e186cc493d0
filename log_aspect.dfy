/**
 * The controller logging aspect: a fixed-width box naming the invoked controller method,
 * the bound role and the bound id, then a single call to the intercepted method.
 */
module Logging {
  import opened Wrappers
  import opened AuthTypes
  import Provider

  /** The largest of three lengths. */
  function Max3(a: nat, b: nat, c: nat): (m: nat)
    ensures a <= m && b <= m && c <= m
    ensures m == a || m == b || m == c
  {
    if a >= b && a >= c then a else if b >= c then b else c
  }

  /** `String.valueOf(c).repeat(n)`. */
  function Repeat(c: char, n: nat): (s: string)
    ensures |s| == n
    ensures forall i :: 0 <= i < |s| ==> s[i] == c
  {
    if n == 0 then "" else [c] + Repeat(c, n - 1)
  }

  /** `String.format("%-" + width + "s", s)`: left-justified, space-filled to at least `width`. */
  function PadRight(s: string, width: nat): (r: string)
    ensures |r| == if |s| < width then width else |s|
    ensures r[..|s|] == s
    ensures forall i :: |s| <= i < |r| ==> r[i] == ' '
  {
    if |s| < width then s + Repeat(' ', width - |s|) else s
  }

  /** The role name logged: the bound role's key, the anonymous role's key when unset. */
  function RoleName(signedRole: Option<Role>): (name: string)
    ensures signedRole.None? ==> name == RoleAnonymous.key
    ensures signedRole.Some? ==> name == signedRole.value.key
  {
    signedRole.GetOr(RoleAnonymous).key
  }

  /** The id logged: the bound id, "" when unset. */
  function IdName(signedId: Option<string>): (name: string)
    ensures signedId.None? ==> name == ""
    ensures signedId.Some? ==> name == signedId.value
  {
    signedId.GetOr("")
  }

  /** The width of the box's value column: the longest of the three strings. */
  function BoxWidth(proceedName: string, roleName: string, idName: string): (max: nat)
    ensures |proceedName| <= max && |roleName| <= max && |idName| <= max
    ensures max == |proceedName| || max == |roleName| || max == |idName|
  {
    Max3(|proceedName|, |roleName|, |idName|)
  }

  /** The five lines of the logged box. */
  function Box(proceedName: string, roleName: string, idName: string): (lines: seq<string>)
    ensures |lines| == 5
    ensures |lines[0]| == |lines[1]| == |lines[2]| == |lines[3]| == |lines[4]|
      == BoxWidth(proceedName, roleName, idName) + 14
    ensures lines[1][..12 + |proceedName|] == "| PROCEED | " + proceedName
    ensures lines[2][..12 + |roleName|] == "| ROLE    | " + roleName
    ensures lines[3][..12 + |idName|] == "| ID      | " + idName
    ensures lines[0] == lines[4]
    ensures lines[0][..12] == "+---------+-"
    ensures forall i :: 12 <= i < |lines[0]| - 2 ==> lines[0][i] == '-'
    ensures forall i :: 12 + |proceedName| <= i < |lines[1]| - 2 ==> lines[1][i] == ' '
    ensures forall i :: 12 + |roleName| <= i < |lines[2]| - 2 ==> lines[2][i] == ' '
    ensures forall i :: 12 + |idName| <= i < |lines[3]| - 2 ==> lines[3][i] == ' '
    ensures forall k :: 0 <= k < 5 ==> lines[k][|lines[k]| - 2..] == (if k == 0 || k == 4 then "-+" else " |")
  {
    var max := BoxWidth(proceedName, roleName, idName);
    var outline := Repeat('-', max);
    var proceedPadding := PadRight(proceedName, max);
    var rolePadding := PadRight(roleName, max);
    var idPadding := PadRight(idName, max);
    var border := "+---------+-" + outline + "-+";
    [ border,
      "| PROCEED | " + proceedPadding + " |",
      "| ROLE    | " + rolePadding + " |",
      "| ID      | " + idPadding + " |",
      border ]
  }

  /** `className + "." + methodName` is never empty, so the box is at least one column wide. */
  lemma BoxWidthPositive(className: string, methodName: string, roleName: string, idName: string)
    ensures BoxWidth(className + "." + methodName, roleName, idName) >= 1
  {
  }

  /**
   * Each field is padded to exactly the box width: it starts with the field and is
   * filled with spaces after it; the outline is that many dashes.
   */
  lemma FieldsFillWidth(proceedName: string, roleName: string, idName: string)
    ensures var max := BoxWidth(proceedName, roleName, idName);
      && |PadRight(proceedName, max)| == max && PadRight(proceedName, max)[..|proceedName|] == proceedName
      && |PadRight(roleName, max)| == max && PadRight(roleName, max)[..|roleName|] == roleName
      && |PadRight(idName, max)| == max && PadRight(idName, max)[..|idName|] == idName
      && (forall i :: |proceedName| <= i < max ==> PadRight(proceedName, max)[i] == ' ')
      && (forall i :: |roleName| <= i < max ==> PadRight(roleName, max)[i] == ' ')
      && (forall i :: |idName| <= i < max ==> PadRight(idName, max)[i] == ' ')
      && |Repeat('-', max)| == max && (forall i :: 0 <= i < max ==> Repeat('-', max)[i] == '-')
  {
  }

  /** The intercepted controller call: its declaring type, its name, and what it produces. */
  class JoinPoint<T> {
    const className: string
    const methodName: string
    const outcome: T
    var proceedCalls: nat

    constructor (className: string, methodName: string, outcome: T)
      ensures this.className == className && this.methodName == methodName && this.outcome == outcome
      ensures proceedCalls == 0
    {
      this.className := className;
      this.methodName := methodName;
      this.outcome := outcome;
      proceedCalls := 0;
    }

    /** `proceed`: runs the intercepted call once and yields its outcome. */
    method Proceed() returns (r: T)
      modifies this
      ensures proceedCalls == old(proceedCalls) + 1 && r == outcome
    {
      proceedCalls := proceedCalls + 1;
      r := outcome;
    }
  }

  /**
   * `controllerLogging`: the box it logs for the bound identity (read, never written),
   * and the intercepted call's outcome, produced by exactly one `proceed`.
   */
  method ControllerLogging<T>(jp: JoinPoint<T>, context: Provider.RequestContext) returns (logged: seq<string>, r: T)
    modifies jp
    ensures jp.proceedCalls == old(jp.proceedCalls) + 1
    ensures r == jp.outcome
    ensures logged == Box(jp.className + "." + jp.methodName, RoleName(context.signedRole), IdName(context.signedId))
    ensures unchanged(context)
  {
    var proceedName := jp.className + "." + jp.methodName;
    var roleName := RoleName(context.signedRole);
    var signedIdName := IdName(context.signedId);
    logged := Box(proceedName, roleName, signedIdName);
    r := jp.Proceed();
  }
}
