/** The role-to-permission matrix and the checks built on it. */
module Permissions {

  import opened Roles

  datatype Permission =
    | DriversView | DriversCreate | DriversUpdate | DriversDelete
    | VehiclesView | VehiclesCreate | VehiclesUpdate | VehiclesDelete
    | RoutesView | RoutesCreate | RoutesUpdate | RoutesDelete
    | DispatchView | DispatchAssign | DispatchManage
    | ReportsView | ReportsExport
    | SettingsView | SettingsUpdate
    | UsersView | UsersInvite | UsersManage
    | FinanceView | FinanceManage
    | SafetyView | SafetyManage
    | TrackingView | TrackingManage

  function PermissionName(p: Permission): string {
    match p
    case DriversView => "drivers.view"
    case DriversCreate => "drivers.create"
    case DriversUpdate => "drivers.update"
    case DriversDelete => "drivers.delete"
    case VehiclesView => "vehicles.view"
    case VehiclesCreate => "vehicles.create"
    case VehiclesUpdate => "vehicles.update"
    case VehiclesDelete => "vehicles.delete"
    case RoutesView => "routes.view"
    case RoutesCreate => "routes.create"
    case RoutesUpdate => "routes.update"
    case RoutesDelete => "routes.delete"
    case DispatchView => "dispatch.view"
    case DispatchAssign => "dispatch.assign"
    case DispatchManage => "dispatch.manage"
    case ReportsView => "reports.view"
    case ReportsExport => "reports.export"
    case SettingsView => "settings.view"
    case SettingsUpdate => "settings.update"
    case UsersView => "users.view"
    case UsersInvite => "users.invite"
    case UsersManage => "users.manage"
    case FinanceView => "finance.view"
    case FinanceManage => "finance.manage"
    case SafetyView => "safety.view"
    case SafetyManage => "safety.manage"
    case TrackingView => "tracking.view"
    case TrackingManage => "tracking.manage"
  }

  /** The permission list of each role, in the order the matrix lists it. */
  function RolePermissions(role: Role): seq<Permission> {
    match role
    case Ops =>
      [DriversView, DriversCreate, DriversUpdate, DriversDelete,
       VehiclesView, VehiclesCreate, VehiclesUpdate, VehiclesDelete,
       RoutesView, RoutesCreate, RoutesUpdate, RoutesDelete,
       DispatchView, DispatchAssign, DispatchManage,
       ReportsView, ReportsExport, SettingsView, SettingsUpdate,
       UsersView, UsersInvite, UsersManage,
       FinanceView, SafetyView, SafetyManage, TrackingView, TrackingManage]
    case Dispatch =>
      [DriversView, VehiclesView, RoutesView, RoutesCreate, RoutesUpdate,
       DispatchView, DispatchAssign, DispatchManage, ReportsView, TrackingView, TrackingManage]
    case Hr =>
      [DriversView, DriversCreate, DriversUpdate, UsersView, UsersInvite, UsersManage, ReportsView]
    case Safety =>
      [DriversView, VehiclesView, RoutesView, SafetyView, SafetyManage, ReportsView, ReportsExport, TrackingView]
    case Finance =>
      [DriversView, RoutesView, FinanceView, FinanceManage, ReportsView, ReportsExport]
    case Driver =>
      [DriversView, RoutesView, TrackingView]
    case PlatformOwner =>
      [DriversView, DriversCreate, DriversUpdate, DriversDelete,
       VehiclesView, VehiclesCreate, VehiclesUpdate, VehiclesDelete,
       RoutesView, RoutesCreate, RoutesUpdate, RoutesDelete,
       DispatchView, DispatchAssign, DispatchManage,
       ReportsView, ReportsExport, SettingsView, SettingsUpdate,
       UsersView, UsersInvite, UsersManage,
       FinanceView, FinanceManage, SafetyView, SafetyManage, TrackingView, TrackingManage]
    case PlatformAdmin =>
      [DriversView, DriversCreate, DriversUpdate,
       VehiclesView, VehiclesCreate, VehiclesUpdate,
       RoutesView, RoutesCreate, RoutesUpdate,
       DispatchView, DispatchAssign, ReportsView, ReportsExport, SettingsView,
       UsersView, UsersInvite, UsersManage, TrackingView, TrackingManage]
  }

  predicate HasPermission(role: Role, permission: Permission) {
    permission in RolePermissions(role)
  }

  /** `permissions.some(p => hasPermission(role, p))`. */
  predicate HasAnyPermission(role: Role, permissions: seq<Permission>) {
    exists i :: 0 <= i < |permissions| && HasPermission(role, permissions[i])
  }

  /** `permissions.every(p => hasPermission(role, p))`. */
  predicate HasAllPermissions(role: Role, permissions: seq<Permission>) {
    forall i :: 0 <= i < |permissions| ==> HasPermission(role, permissions[i])
  }

  /** The position of each permission in the type's declaration order. */
  function Ordinal(p: Permission): nat {
    match p
    case DriversView => 0 case DriversCreate => 1 case DriversUpdate => 2 case DriversDelete => 3
    case VehiclesView => 4 case VehiclesCreate => 5 case VehiclesUpdate => 6 case VehiclesDelete => 7
    case RoutesView => 8 case RoutesCreate => 9 case RoutesUpdate => 10 case RoutesDelete => 11
    case DispatchView => 12 case DispatchAssign => 13 case DispatchManage => 14
    case ReportsView => 15 case ReportsExport => 16
    case SettingsView => 17 case SettingsUpdate => 18
    case UsersView => 19 case UsersInvite => 20 case UsersManage => 21
    case FinanceView => 22 case FinanceManage => 23
    case SafetyView => 24 case SafetyManage => 25
    case TrackingView => 26 case TrackingManage => 27
  }

  /** The platform owner holds every one of the 28 permissions. */
  lemma OwnerHoldsEveryPermission(p: Permission)
    ensures HasPermission(PlatformOwner, p)
  {
    var owner := RolePermissions(PlatformOwner);
    match p
    case DriversView => assert owner[0] == p;
    case DriversCreate => assert owner[1] == p;
    case DriversUpdate => assert owner[2] == p;
    case DriversDelete => assert owner[3] == p;
    case VehiclesView => assert owner[4] == p;
    case VehiclesCreate => assert owner[5] == p;
    case VehiclesUpdate => assert owner[6] == p;
    case VehiclesDelete => assert owner[7] == p;
    case RoutesView => assert owner[8] == p;
    case RoutesCreate => assert owner[9] == p;
    case RoutesUpdate => assert owner[10] == p;
    case RoutesDelete => assert owner[11] == p;
    case DispatchView => assert owner[12] == p;
    case DispatchAssign => assert owner[13] == p;
    case DispatchManage => assert owner[14] == p;
    case ReportsView => assert owner[15] == p;
    case ReportsExport => assert owner[16] == p;
    case SettingsView => assert owner[17] == p;
    case SettingsUpdate => assert owner[18] == p;
    case UsersView => assert owner[19] == p;
    case UsersInvite => assert owner[20] == p;
    case UsersManage => assert owner[21] == p;
    case FinanceView => assert owner[22] == p;
    case FinanceManage => assert owner[23] == p;
    case SafetyView => assert owner[24] == p;
    case SafetyManage => assert owner[25] == p;
    case TrackingView => assert owner[26] == p;
    case TrackingManage => assert owner[27] == p;
  }

  /** The platform owner's list has 28 entries with no repeats. */
  lemma OwnerListIsDistinct()
    ensures |RolePermissions(PlatformOwner)| == 28
    ensures forall i, j :: 0 <= i < j < 28 ==> RolePermissions(PlatformOwner)[i] != RolePermissions(PlatformOwner)[j]
  {
    var owner := RolePermissions(PlatformOwner);
    forall i | 0 <= i < 28 ensures Ordinal(owner[i]) == i {
    }
  }

  /** Every role's permissions are among the platform owner's. */
  lemma RolesAreWithinOwner(role: Role, p: Permission)
    ensures HasPermission(role, p) ==> HasPermission(PlatformOwner, p)
  {
    OwnerHoldsEveryPermission(p);
  }

  /** Operations may view finance but not manage it. */
  lemma OpsFinanceViewOnly()
    ensures HasPermission(Ops, FinanceView)
    ensures !HasPermission(Ops, FinanceManage)
  {
  }

  /** A driver holds exactly three permissions. */
  lemma DriverPermissions(p: Permission)
    ensures HasPermission(Driver, p) <==> p == DriversView || p == RoutesView || p == TrackingView
  {
  }

  /** On the empty list, "any" is false and "all" is true. */
  lemma EmptyPermissionList(role: Role)
    ensures !HasAnyPermission(role, [])
    ensures HasAllPermissions(role, [])
  {
  }

  /** On a non-empty list, "all" implies "any". */
  lemma AllImpliesAny(role: Role, permissions: seq<Permission>)
    requires permissions != []
    ensures HasAllPermissions(role, permissions) ==> HasAnyPermission(role, permissions)
  {
    if HasAllPermissions(role, permissions) {
      assert HasPermission(role, permissions[0]);
    }
  }

  /** `hasPermission` agrees with membership in `getRolePermissions`. */
  lemma HasPermissionMatchesList(role: Role, p: Permission)
    ensures HasPermission(role, p) <==> exists i :: 0 <= i < |RolePermissions(role)| && RolePermissions(role)[i] == p
  {
    if HasPermission(role, p) {
      var i :| 0 <= i < |RolePermissions(role)| && RolePermissions(role)[i] == p;
    }
  }
}
