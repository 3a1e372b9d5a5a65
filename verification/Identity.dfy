/**
 * Roles, permissions and branch-coupled entitlements: who may do what, and where.
 * The functions are the specification; the methods are the loops of the source.
 */
module Identity {
  import opened Wrappers

  datatype Role = SuperAdmin | CompanyManager | BranchEmployee | Agent | Passenger

  datatype Permission =
    | CompaniesRead | CompaniesUpdate | MembershipsRead | MembershipsManage
    | BranchesRead | BranchesManage | StaffRead | StaffManage
    | FleetRead | FleetManage | RoutesRead | RoutesManage | TripsRead | TripsManage
    | BookingsRead | BookingsCreate | BookingsCancel
    | PaymentsRead | PaymentsConfirm | PaymentsRefund | CommissionsRead
    | TicketsRead | TicketsIssue | TicketsValidate
    | MaintenanceRead | MaintenanceManage | AuditRead

  /** One row of company_memberships. The commission rate is in hundredths of a percent. */
  datatype Membership = Membership(
    id: nat, userId: nat, companyId: nat, branchId: Option<nat>,
    role: Role, isActive: bool, commissionRate: nat)

  datatype BranchAccess = CompanyWide | Restricted(branchIds: set<nat>) | NoBranch

  datatype Entitlement = Entitlement(
    membership: Membership, permissions: seq<Permission>, branchAccess: BranchAccess)

  /** A company-scoped access filter, as the repositories bind it. */
  datatype Scope = Scope(companyWide: bool, branchIds: set<nat>)

  datatype BranchReadScope = AllBranches | SomeBranches(branchIds: set<nat>) | NoBranches

  const ALL_PERMISSIONS: seq<Permission> := [
    CompaniesRead, CompaniesUpdate, MembershipsRead, MembershipsManage,
    BranchesRead, BranchesManage, StaffRead, StaffManage,
    FleetRead, FleetManage, RoutesRead, RoutesManage, TripsRead, TripsManage,
    BookingsRead, BookingsCreate, BookingsCancel,
    PaymentsRead, PaymentsConfirm, PaymentsRefund, CommissionsRead,
    TicketsRead, TicketsIssue, TicketsValidate,
    MaintenanceRead, MaintenanceManage, AuditRead]

  const COMPANY_READ_PERMISSIONS: seq<Permission> := [
    CompaniesRead, BranchesRead, StaffRead, FleetRead, RoutesRead,
    TripsRead, BookingsRead, PaymentsRead, TicketsRead, MaintenanceRead]

  function RolePermissions(role: Role): seq<Permission> {
    match role
    case SuperAdmin => ALL_PERMISSIONS
    case CompanyManager => ALL_PERMISSIONS
    case BranchEmployee => COMPANY_READ_PERMISSIONS
    case Agent => COMPANY_READ_PERMISSIONS + [BookingsCreate, CommissionsRead]
    case Passenger => []
  }

  predicate IsCompanyWideRole(role: Role) {
    role == SuperAdmin || role == CompanyManager
  }

  predicate IsBranchScopedRole(role: Role) {
    role == BranchEmployee || role == Agent
  }

  // ---------------------------------------------------------------- specification

  /** What the code must decide: one membership grants the permission and reaches the branch. */
  ghost predicate Grants(m: Membership, permission: Permission, branch: nat) {
    && permission in RolePermissions(m.role)
    && (IsCompanyWideRole(m.role) || (IsBranchScopedRole(m.role) && m.branchId == Some(branch)))
  }

  ghost predicate Granted(ms: seq<Membership>, permission: Permission, branch: nat) {
    exists i :: 0 <= i < |ms| && Grants(ms[i], permission, branch)
  }

  function GrantedBy(roles: seq<Role>): set<Permission> {
    set r, p | r in roles && p in RolePermissions(r) :: p
  }

  function InCatalogOrder(catalog: seq<Permission>, granted: set<Permission>): seq<Permission> {
    if catalog == [] then []
    else (if catalog[0] in granted then [catalog[0]] else []) + InCatalogOrder(catalog[1..], granted)
  }

  function PermissionsForRoles(roles: seq<Role>): seq<Permission> {
    InCatalogOrder(ALL_PERMISSIONS, GrantedBy(roles))
  }

  function NamedBranches(ms: seq<Membership>): set<nat> {
    set m | m in ms && IsBranchScopedRole(m.role) && m.branchId.Some? :: m.branchId.value
  }

  function ResolveBranchAccess(ms: seq<Membership>): BranchAccess {
    if exists m :: m in ms && IsCompanyWideRole(m.role) then CompanyWide
    else if NamedBranches(ms) == {} then NoBranch
    else Restricted(NamedBranches(ms))
  }

  function ResolveEntitlement(m: Membership): Entitlement {
    Entitlement(m, PermissionsForRoles([m.role]), ResolveBranchAccess([m]))
  }

  function ResolveEntitlements(ms: seq<Membership>): seq<Entitlement> {
    seq(|ms|, i requires 0 <= i < |ms| => ResolveEntitlement(ms[i]))
  }

  predicate ScopeReachesBranch(access: BranchAccess, branch: nat) {
    match access
    case CompanyWide => true
    case Restricted(ids) => branch in ids
    case NoBranch => false
  }

  predicate CanExercisePermissionInBranch(es: seq<Entitlement>, permission: Permission, branch: nat) {
    exists i :: 0 <= i < |es| && ScopeReachesBranch(es[i].branchAccess, branch) && permission in es[i].permissions
  }

  function PermissionsReaching(es: seq<Entitlement>, branch: nat): set<Permission> {
    set e, p | e in es && ScopeReachesBranch(e.branchAccess, branch) && p in e.permissions :: p
  }

  function EffectivePermissionsForBranch(es: seq<Entitlement>, branch: nat): seq<Permission> {
    InCatalogOrder(ALL_PERMISSIONS, PermissionsReaching(es, branch))
  }

  predicate HasCompanyWide(es: seq<Entitlement>, permission: Permission) {
    exists e :: e in es && permission in e.permissions && e.branchAccess.CompanyWide?
  }

  function RestrictedBranches(es: seq<Entitlement>, permission: Permission): set<nat> {
    set e, b | e in es && permission in e.permissions && e.branchAccess.Restricted?
               && b in e.branchAccess.branchIds :: b
  }

  function AccessScope(es: seq<Entitlement>, permission: Permission): Scope {
    Scope(HasCompanyWide(es, permission), RestrictedBranches(es, permission))
  }

  /** The SQL filter `$3::boolean OR branch_id = ANY($4)`; a NULL branch needs the company-wide flag. */
  predicate ScopeCovers(scope: Scope, branch: Option<nat>) {
    scope.companyWide || (branch.Some? && branch.value in scope.branchIds)
  }

  function ReadableBranchScope(es: seq<Entitlement>): BranchReadScope {
    if HasCompanyWide(es, BranchesRead) then AllBranches
    else if RestrictedBranches(es, BranchesRead) != {} then SomeBranches(RestrictedBranches(es, BranchesRead))
    else NoBranches
  }

  predicate ReadScopeCovers(scope: BranchReadScope, branch: nat) {
    match scope
    case AllBranches => true
    case SomeBranches(ids) => branch in ids
    case NoBranches => false
  }

  // ---------------------------------------------------------------- the source's loops

  /** The inner loop: add every permission of a row to the Set. */
  method AddAll(before: set<Permission>, row: seq<Permission>) returns (granted: set<Permission>)
    ensures granted == before + set p | p in row
  {
    granted := before;
    for j := 0 to |row|
      invariant granted == before + set p | p in row[..j]
    {
      granted := granted + {row[j]};
    }
    assert row[..|row|] == row;
  }

  /** permissionsForRoles: fill a Set in two nested loops, then filter the catalog. */
  method ComputePermissionsForRoles(roles: seq<Role>) returns (permissions: seq<Permission>)
    ensures permissions == PermissionsForRoles(roles)
  {
    var granted: set<Permission> := {};
    for i := 0 to |roles|
      invariant granted == GrantedBy(roles[..i])
    {
      assert roles[..i + 1] == roles[..i] + [roles[i]];
      granted := AddAll(granted, RolePermissions(roles[i]));
    }
    assert roles[..|roles|] == roles;
    permissions := FilterCatalog(ALL_PERMISSIONS, granted);
  }

  method FilterCatalog(catalog: seq<Permission>, granted: set<Permission>) returns (permissions: seq<Permission>)
    ensures permissions == InCatalogOrder(catalog, granted)
  {
    permissions := [];
    for i := 0 to |catalog|
      invariant permissions + InCatalogOrder(catalog[i..], granted) == InCatalogOrder(catalog, granted)
    {
      assert catalog[i..][1..] == catalog[i + 1..];
      if catalog[i] in granted {
        permissions := permissions + [catalog[i]];
      }
    }
  }

  /** resolveBranchAccess: a company-wide role wins; otherwise collect the named branches. */
  method ComputeBranchAccess(ms: seq<Membership>) returns (access: BranchAccess)
    ensures access == ResolveBranchAccess(ms)
  {
    var branchIds: set<nat> := {};
    for i := 0 to |ms|
      invariant forall k :: 0 <= k < i ==> !IsCompanyWideRole(ms[k].role)
      invariant branchIds == NamedBranches(ms[..i])
    {
      if IsCompanyWideRole(ms[i].role) {
        return CompanyWide;
      }
      assert ms[..i + 1] == ms[..i] + [ms[i]];
      if IsBranchScopedRole(ms[i].role) && ms[i].branchId.Some? {
        branchIds := branchIds + {ms[i].branchId.value};
      }
    }
    assert ms[..|ms|] == ms;
    access := if branchIds == {} then NoBranch else Restricted(branchIds);
  }

  /** effectivePermissionsForBranch: accumulate from the memberships that reach the branch. */
  method ComputeEffectivePermissions(es: seq<Entitlement>, branch: nat) returns (permissions: seq<Permission>)
    ensures permissions == EffectivePermissionsForBranch(es, branch)
  {
    var granted: set<Permission> := {};
    for i := 0 to |es|
      invariant granted == PermissionsReaching(es[..i], branch)
    {
      assert es[..i + 1] == es[..i] + [es[i]];
      if ScopeReachesBranch(es[i].branchAccess, branch) {
        granted := AddAll(granted, es[i].permissions);
      }
    }
    assert es[..|es|] == es;
    permissions := FilterCatalog(ALL_PERMISSIONS, granted);
  }

  /** One more entitlement adds its own flag and its own branches to the accumulated scope. */
  lemma ScopeOfPrefix(es: seq<Entitlement>, i: nat, permission: Permission)
    requires i < |es|
    ensures var e := es[i];
      && HasCompanyWide(es[..i + 1], permission)
         == (HasCompanyWide(es[..i], permission) || (permission in e.permissions && e.branchAccess.CompanyWide?))
      && RestrictedBranches(es[..i + 1], permission)
         == RestrictedBranches(es[..i], permission)
          + (if permission in e.permissions && e.branchAccess.Restricted? then e.branchAccess.branchIds else {})
  {
    var e := es[i];
    assert es[..i + 1] == es[..i] + [e];
    forall x | x in es[..i + 1]
      ensures x in es[..i] || x == e
    {
    }
    assert e in es[..i + 1];
  }

  /** accessScope, as the bookings, payments and tickets services accumulate it. */
  method ComputeAccessScope(es: seq<Entitlement>, permission: Permission) returns (scope: Scope)
    ensures scope == AccessScope(es, permission)
  {
    var companyWide := false;
    var branchIds: set<nat> := {};
    for i := 0 to |es|
      invariant companyWide == HasCompanyWide(es[..i], permission)
      invariant branchIds == RestrictedBranches(es[..i], permission)
    {
      ScopeOfPrefix(es, i, permission);
      if permission in es[i].permissions {
        if es[i].branchAccess.CompanyWide? {
          companyWide := true;
        }
        if es[i].branchAccess.Restricted? {
          branchIds := branchIds + es[i].branchAccess.branchIds;
        }
      }
    }
    assert es[..|es|] == es;
    scope := Scope(companyWide, branchIds);
  }

  /** readableBranchScope: readers only, company-wide first, then the union of their branches. */
  method ComputeReadableBranchScope(es: seq<Entitlement>) returns (scope: BranchReadScope)
    ensures scope == ReadableBranchScope(es)
  {
    var branchIds: set<nat> := {};
    for i := 0 to |es|
      invariant !HasCompanyWide(es[..i], BranchesRead)
      invariant branchIds == RestrictedBranches(es[..i], BranchesRead)
    {
      ScopeOfPrefix(es, i, BranchesRead);
      if BranchesRead in es[i].permissions {
        if es[i].branchAccess.CompanyWide? {
          assert es[i] in es;
          return AllBranches;
        }
        if es[i].branchAccess.Restricted? {
          branchIds := branchIds + es[i].branchAccess.branchIds;
        }
      }
    }
    assert es[..|es|] == es;
    scope := if branchIds != {} then SomeBranches(branchIds) else NoBranches;
  }

  // ---------------------------------------------------------------- theorems

  lemma {:induction false} CatalogOrderKeepsMembers(catalog: seq<Permission>, granted: set<Permission>, p: Permission)
    ensures p in InCatalogOrder(catalog, granted) <==> p in catalog && p in granted
  {
    if catalog != [] {
      CatalogOrderKeepsMembers(catalog[1..], granted, p);
    }
  }

  lemma CatalogIsComplete(p: Permission)
    ensures p in ALL_PERMISSIONS
  {
    match p
    case CompaniesRead => assert ALL_PERMISSIONS[0] == p;
    case CompaniesUpdate => assert ALL_PERMISSIONS[1] == p;
    case MembershipsRead => assert ALL_PERMISSIONS[2] == p;
    case MembershipsManage => assert ALL_PERMISSIONS[3] == p;
    case BranchesRead => assert ALL_PERMISSIONS[4] == p;
    case BranchesManage => assert ALL_PERMISSIONS[5] == p;
    case StaffRead => assert ALL_PERMISSIONS[6] == p;
    case StaffManage => assert ALL_PERMISSIONS[7] == p;
    case FleetRead => assert ALL_PERMISSIONS[8] == p;
    case FleetManage => assert ALL_PERMISSIONS[9] == p;
    case RoutesRead => assert ALL_PERMISSIONS[10] == p;
    case RoutesManage => assert ALL_PERMISSIONS[11] == p;
    case TripsRead => assert ALL_PERMISSIONS[12] == p;
    case TripsManage => assert ALL_PERMISSIONS[13] == p;
    case BookingsRead => assert ALL_PERMISSIONS[14] == p;
    case BookingsCreate => assert ALL_PERMISSIONS[15] == p;
    case BookingsCancel => assert ALL_PERMISSIONS[16] == p;
    case PaymentsRead => assert ALL_PERMISSIONS[17] == p;
    case PaymentsConfirm => assert ALL_PERMISSIONS[18] == p;
    case PaymentsRefund => assert ALL_PERMISSIONS[19] == p;
    case CommissionsRead => assert ALL_PERMISSIONS[20] == p;
    case TicketsRead => assert ALL_PERMISSIONS[21] == p;
    case TicketsIssue => assert ALL_PERMISSIONS[22] == p;
    case TicketsValidate => assert ALL_PERMISSIONS[23] == p;
    case MaintenanceRead => assert ALL_PERMISSIONS[24] == p;
    case MaintenanceManage => assert ALL_PERMISSIONS[25] == p;
    case AuditRead => assert ALL_PERMISSIONS[26] == p;
  }

  /** The role table survives the Set-and-filter computation: exactly the union of the roles' rows. */
  lemma PermissionsForRolesIsUnion(roles: seq<Role>, p: Permission)
    ensures p in PermissionsForRoles(roles) <==> exists r :: r in roles && p in RolePermissions(r)
  {
    CatalogIsComplete(p);
    CatalogOrderKeepsMembers(ALL_PERMISSIONS, GrantedBy(roles), p);
  }

  lemma EntitlementMeansGrant(m: Membership, permission: Permission, branch: nat)
    ensures ScopeReachesBranch(ResolveEntitlement(m).branchAccess, branch)
         && permission in ResolveEntitlement(m).permissions
        <==> Grants(m, permission, branch)
  {
    PermissionsForRolesIsUnion([m.role], permission);
    assert m in [m];
    if IsBranchScopedRole(m.role) && m.branchId.Some? {
      assert m.branchId.value in NamedBranches([m]);
    }
  }

  lemma CanExerciseMeansGranted(ms: seq<Membership>, permission: Permission, branch: nat)
    ensures CanExercisePermissionInBranch(ResolveEntitlements(ms), permission, branch) <==> Granted(ms, permission, branch)
  {
    var es := ResolveEntitlements(ms);
    forall i | 0 <= i < |ms|
      ensures ScopeReachesBranch(es[i].branchAccess, branch) && permission in es[i].permissions <==> Grants(ms[i], permission, branch)
    {
      EntitlementMeansGrant(ms[i], permission, branch);
    }
  }

  lemma AccessScopeMeansCanExercise(es: seq<Entitlement>, permission: Permission, branch: nat)
    ensures ScopeCovers(AccessScope(es, permission), Some(branch)) <==> CanExercisePermissionInBranch(es, permission, branch)
  {
    if ScopeCovers(AccessScope(es, permission), Some(branch)) {
      var e :| e in es && permission in e.permissions && ScopeReachesBranch(e.branchAccess, branch);
      var i :| 0 <= i < |es| && es[i] == e;
    }
    if i :| 0 <= i < |es| && ScopeReachesBranch(es[i].branchAccess, branch) && permission in es[i].permissions {
      assert es[i] in es;
    }
  }

  lemma EffectiveMeansCanExercise(es: seq<Entitlement>, permission: Permission, branch: nat)
    ensures permission in EffectivePermissionsForBranch(es, branch) <==> CanExercisePermissionInBranch(es, permission, branch)
  {
    CatalogIsComplete(permission);
    CatalogOrderKeepsMembers(ALL_PERMISSIONS, PermissionsReaching(es, branch), permission);
    if permission in PermissionsReaching(es, branch) {
      var e :| e in es && ScopeReachesBranch(e.branchAccess, branch) && permission in e.permissions;
      var i :| 0 <= i < |es| && es[i] == e;
    }
  }

  /**
   * Every way the code computes a branch decision gives the same answer, and that answer is the
   * coupled one: some single membership grants the permission and reaches the branch.
   */
  lemma DecisionsAgree(ms: seq<Membership>, permission: Permission, branch: nat)
    ensures var es := ResolveEntitlements(ms);
      && (CanExercisePermissionInBranch(es, permission, branch) <==> Granted(ms, permission, branch))
      && (ScopeCovers(AccessScope(es, permission), Some(branch)) <==> Granted(ms, permission, branch))
      && (permission in EffectivePermissionsForBranch(es, branch) <==> Granted(ms, permission, branch))
      && (ReadScopeCovers(ReadableBranchScope(es), branch) <==> Granted(ms, BranchesRead, branch))
  {
    var es := ResolveEntitlements(ms);
    CanExerciseMeansGranted(ms, permission, branch);
    CanExerciseMeansGranted(ms, BranchesRead, branch);
    AccessScopeMeansCanExercise(es, permission, branch);
    AccessScopeMeansCanExercise(es, BranchesRead, branch);
    EffectiveMeansCanExercise(es, permission, branch);
  }

  /** A caller's decision over two lists of memberships is the disjunction: nothing is gained by pairing them. */
  lemma DecisionDistributes(ms: seq<Membership>, ns: seq<Membership>, permission: Permission, branch: nat)
    ensures CanExercisePermissionInBranch(ResolveEntitlements(ms + ns), permission, branch)
        == (CanExercisePermissionInBranch(ResolveEntitlements(ms), permission, branch)
            || CanExercisePermissionInBranch(ResolveEntitlements(ns), permission, branch))
  {
    CanExerciseMeansGranted(ms + ns, permission, branch);
    CanExerciseMeansGranted(ms, permission, branch);
    CanExerciseMeansGranted(ns, permission, branch);
    if i :| 0 <= i < |ms| && Grants(ms[i], permission, branch) {
      assert (ms + ns)[i] == ms[i];
    }
    if j :| 0 <= j < |ns| && Grants(ns[j], permission, branch) {
      assert (ms + ns)[|ms| + j] == ns[j];
    }
  }

  /** More memberships never take a decision away. */
  lemma DecisionIsMonotone(ms: seq<Membership>, ns: seq<Membership>, permission: Permission, branch: nat)
    requires forall m :: m in ms ==> m in ns
    requires CanExercisePermissionInBranch(ResolveEntitlements(ms), permission, branch)
    ensures CanExercisePermissionInBranch(ResolveEntitlements(ns), permission, branch)
  {
    CanExerciseMeansGranted(ms, permission, branch);
    CanExerciseMeansGranted(ns, permission, branch);
    var i :| 0 <= i < |ms| && Grants(ms[i], permission, branch);
    assert ms[i] in ns;
  }

  function Roles(ms: seq<Membership>): seq<Role> {
    seq(|ms|, i requires 0 <= i < |ms| => ms[i].role)
  }

  /** The flat decision the code refuses to make: permission union against branch union. */
  predicate FlatDecision(ms: seq<Membership>, permission: Permission, branch: nat) {
    permission in PermissionsForRoles(Roles(ms)) && ScopeReachesBranch(ResolveBranchAccess(ms), branch)
  }

  /** The coupled decision is contained in the flat cross-product ... */
  lemma CoupledWithinFlat(ms: seq<Membership>, permission: Permission, branch: nat)
    requires CanExercisePermissionInBranch(ResolveEntitlements(ms), permission, branch)
    ensures FlatDecision(ms, permission, branch)
  {
    CanExerciseMeansGranted(ms, permission, branch);
    var i :| 0 <= i < |ms| && Grants(ms[i], permission, branch);
    OneGrantsFlat(ms, i, permission, branch);
  }

  lemma OneGrantsFlat(ms: seq<Membership>, i: nat, permission: Permission, branch: nat)
    requires i < |ms| && Grants(ms[i], permission, branch)
    ensures FlatDecision(ms, permission, branch)
  {
    assert ms[i] in ms && Roles(ms)[i] == ms[i].role;
    PermissionsForRolesIsUnion(Roles(ms), permission);
    if !IsCompanyWideRole(ms[i].role) {
      assert branch in NamedBranches(ms);
    }
  }

  lemma OnlyAgentsOfTheTwoCreate()
    ensures BookingsCreate in RolePermissions(Agent) && BookingsCreate !in RolePermissions(BranchEmployee)
  {
    assert RolePermissions(Agent)[10] == BookingsCreate;
  }

  /** ... strictly: an agent of one branch who is an employee of another gains no create right there. */
  lemma FlatGrantsMore(user: nat, company: nat, home: nat, other: nat, rate: nat)
    requires home != other
    ensures var ms := [Membership(0, user, company, Some(home), Agent, true, rate),
                       Membership(1, user, company, Some(other), BranchEmployee, true, 0)];
      && FlatDecision(ms, BookingsCreate, other)
      && !CanExercisePermissionInBranch(ResolveEntitlements(ms), BookingsCreate, other)
  {
    var ms := [Membership(0, user, company, Some(home), Agent, true, rate),
               Membership(1, user, company, Some(other), BranchEmployee, true, 0)];
    assert Roles(ms)[0] == Agent;
    OnlyAgentsOfTheTwoCreate();
    PermissionsForRolesIsUnion(Roles(ms), BookingsCreate);
    assert ms[1] in ms && other in NamedBranches(ms);
    CanExerciseMeansGranted(ms, BookingsCreate, other);
  }

  lemma CreatorRolesRead(role: Role)
    requires BookingsCreate in RolePermissions(role)
    ensures BookingsRead in RolePermissions(role)
  {
    match role
    case SuperAdmin => CatalogIsComplete(BookingsRead);
    case CompanyManager => CatalogIsComplete(BookingsRead);
    case BranchEmployee => assert COMPANY_READ_PERMISSIONS[6] == BookingsRead;
    case Agent => assert RolePermissions(role)[6] == BookingsRead;
    case Passenger =>
  }

  /** Whoever may create bookings in a branch may also read them there. */
  lemma CreateImpliesRead(ms: seq<Membership>, branch: nat)
    requires CanExercisePermissionInBranch(ResolveEntitlements(ms), BookingsCreate, branch)
    ensures ScopeCovers(AccessScope(ResolveEntitlements(ms), BookingsRead), Some(branch))
  {
    DecisionsAgree(ms, BookingsCreate, branch);
    DecisionsAgree(ms, BookingsRead, branch);
    var i :| 0 <= i < |ms| && Grants(ms[i], BookingsCreate, branch);
    CreatorRolesRead(ms[i].role);
    assert Grants(ms[i], BookingsRead, branch);
  }
}
