/** The role catalogue: six roles inside an organization (DSP roles) and two roles of
    the platform operator, with the membership tests over role strings. */
module Roles {

  import opened Common

  const DSP_ROLES: seq<string> := ["OPS", "DISPATCH", "HR", "SAFETY", "FINANCE", "DRIVER"]
  const PLATFORM_ROLES: seq<string> := ["PLATFORM_OWNER", "PLATFORM_ADMIN"]

  datatype Role = Ops | Dispatch | Hr | Safety | Finance | Driver | PlatformOwner | PlatformAdmin

  function RoleName(r: Role): string {
    match r
    case Ops => "OPS"
    case Dispatch => "DISPATCH"
    case Hr => "HR"
    case Safety => "SAFETY"
    case Finance => "FINANCE"
    case Driver => "DRIVER"
    case PlatformOwner => "PLATFORM_OWNER"
    case PlatformAdmin => "PLATFORM_ADMIN"
  }

  predicate IsDSPRole(role: string) {
    role in DSP_ROLES
  }

  predicate IsPlatformRole(role: string) {
    role in PLATFORM_ROLES
  }

  predicate IsValidRole(role: string) {
    IsDSPRole(role) || IsPlatformRole(role)
  }

  /** The typed role a valid role string names (the type guard of `isValidRole`). */
  function ParseRole(role: string): (r: Option<Role>)
    ensures r.Some? <==> IsValidRole(role)
    ensures r.Some? ==> RoleName(r.value) == role
  {
    match role
    case "OPS" => Some(Ops)
    case "DISPATCH" => Some(Dispatch)
    case "HR" => Some(Hr)
    case "SAFETY" => Some(Safety)
    case "FINANCE" => Some(Finance)
    case "DRIVER" => Some(Driver)
    case "PLATFORM_OWNER" => Some(PlatformOwner)
    case "PLATFORM_ADMIN" => Some(PlatformAdmin)
    case _ => None
  }

  /** No string is both a DSP role and a platform role. */
  lemma RoleListsDisjoint(role: string)
    ensures !(IsDSPRole(role) && IsPlatformRole(role))
  {
  }

  /** Every role of the type: the six DSP roles followed by the two platform roles. */
  const ALL_ROLES: seq<string> := DSP_ROLES + PLATFORM_ROLES

  /** The valid role strings are exactly the eight listed names, and those are distinct. */
  lemma ValidRolesAreTheEightNames()
    ensures forall s :: IsValidRole(s) <==> s in ALL_ROLES
    ensures |ALL_ROLES| == 8
    ensures forall i, j :: 0 <= i < j < |ALL_ROLES| ==> ALL_ROLES[i] != ALL_ROLES[j]
  {
    assert ALL_ROLES == ["OPS", "DISPATCH", "HR", "SAFETY", "FINANCE", "DRIVER", "PLATFORM_OWNER", "PLATFORM_ADMIN"];
    forall i, j | 0 <= i < j < |ALL_ROLES| ensures ALL_ROLES[i] != ALL_ROLES[j] {
      var a, b := ALL_ROLES[i], ALL_ROLES[j];
      assert a[0] != b[0] || |a| != |b| || a[1] != b[1] || a[|a| - 1] != b[|b| - 1];
    }
  }

  /** Every typed role names a valid role string and parses back to itself. */
  lemma RoleNamesRoundTrip(r: Role)
    ensures IsValidRole(RoleName(r))
    ensures ParseRole(RoleName(r)) == Some(r)
  {
  }

  /** A string outside both lists, such as "ADMIN", is not a role. */
  lemma AdminIsNotARole()
    ensures !IsValidRole("ADMIN") && ParseRole("ADMIN").None?
  {
  }
}
