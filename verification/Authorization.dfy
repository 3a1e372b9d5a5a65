/** A company call changes the tables only for an actor whose membership grants it on the booking's own branch. */
module Authorization {
  import opened Wrappers
  import opened Identity
  import opened Tables
  import opened Reservation

  /** The role grants the permission, and reaches the branch; only a company-wide role reaches a NULL branch. */
  predicate RoleCovers(m: Membership, permission: Permission, branch: Option<nat>) {
    && permission in RolePermissions(m.role)
    && (IsCompanyWideRole(m.role) || (IsBranchScopedRole(m.role) && branch.Some? && m.branchId == branch))
  }

  predicate IsCompanyRead(p: Permission) {
    || p.CompaniesRead? || p.BranchesRead? || p.StaffRead? || p.FleetRead? || p.RoutesRead?
    || p.TripsRead? || p.BookingsRead? || p.PaymentsRead? || p.TicketsRead? || p.MaintenanceRead?
  }

  /**
   * Who may do what where: admins and managers everything, also where there is no branch; employees and agents only in
   * their own branch, employees only reading, agents reading and creating bookings and reading commissions.
   */
  lemma RolesMay(m: Membership, p: Permission, branch: Option<nat>)
    ensures RoleCovers(m, p, branch) <==>
      match m.role
      case SuperAdmin => true
      case CompanyManager => true
      case BranchEmployee => branch.Some? && m.branchId == branch && IsCompanyRead(p)
      case Agent => branch.Some? && m.branchId == branch && (IsCompanyRead(p) || p.BookingsCreate? || p.CommissionsRead?)
      case Passenger => false
  {
    CatalogIsComplete(p);
    CompanyReadsAre(p);
    AgentsMay(p);
  }

  lemma CompanyReadsAre(p: Permission)
    ensures p in COMPANY_READ_PERMISSIONS <==> IsCompanyRead(p)
  {
    var row := COMPANY_READ_PERMISSIONS;
    match p
    case CompaniesRead => assert row[0] == p;
    case BranchesRead => assert row[1] == p;
    case StaffRead => assert row[2] == p;
    case FleetRead => assert row[3] == p;
    case RoutesRead => assert row[4] == p;
    case TripsRead => assert row[5] == p;
    case BookingsRead => assert row[6] == p;
    case PaymentsRead => assert row[7] == p;
    case TicketsRead => assert row[8] == p;
    case MaintenanceRead => assert row[9] == p;
    case _ =>
  }

  lemma AgentsMay(p: Permission)
    ensures p in RolePermissions(Agent) <==> p in COMPANY_READ_PERMISSIONS || p.BookingsCreate? || p.CommissionsRead?
  {
    var all := RolePermissions(Agent);
    assert all[10] == BookingsCreate && all[11] == CommissionsRead;
    if p in COMPANY_READ_PERMISSIONS {
      var i :| 0 <= i < |COMPANY_READ_PERMISSIONS| && COMPANY_READ_PERMISSIONS[i] == p;
      assert all[i] == p;
    }
  }

  /** An active membership of the actor in the company grants the permission and covers the branch (or NULL branch, company-wide only). */
  ghost predicate GrantsOn(m: Membership, actor: nat, companyId: nat, permission: Permission, branch: Option<nat>) {
    m.userId == actor && m.companyId == companyId && m.isActive && RoleCovers(m, permission, branch)
  }

  ghost predicate MayActOn(db: Db, actor: nat, companyId: nat, permission: Permission, bookingId: nat) {
    && bookingId < |db.bookings|
    && db.bookings[bookingId].companyId == companyId
    && exists i :: 0 <= i < |db.memberships| && GrantsOn(db.memberships[i], actor, companyId, permission, db.bookings[bookingId].branchId)
  }

  /** findMemberships returns exactly the active memberships of the actor in the company. */
  lemma {:induction false} FindMembershipsExact(ms: seq<Membership>, actor: nat, companyId: nat, m: Membership)
    ensures m in FindMemberships(ms, actor, companyId) <==> m in ms && m.userId == actor && m.companyId == companyId && m.isActive
  {
    if ms != [] {
      var n := |ms| - 1;
      FindMembershipsExact(ms[..n], actor, companyId, m);
      assert ms == ms[..n] + [ms[n]];
    }
  }

  /** One membership's part of the accumulated scope. */
  lemma EntitlementCovers(m: Membership, permission: Permission, branch: Option<nat>)
    ensures var e := ResolveEntitlement(m);
      (permission in e.permissions
       && (e.branchAccess.CompanyWide? || (branch.Some? && e.branchAccess.Restricted? && branch.value in e.branchAccess.branchIds)))
      <==> RoleCovers(m, permission, branch)
  {
    PermissionsForRolesIsUnion([m.role], permission);
    assert m in [m];
    if IsBranchScopedRole(m.role) && m.branchId.Some? {
      assert m.branchId.value in NamedBranches([m]);
    }
  }

  lemma CoveringMembership(ms: seq<Membership>, permission: Permission, branch: Option<nat>) returns (i: nat)
    requires ScopeCovers(AccessScope(ResolveEntitlements(ms), permission), branch)
    ensures i < |ms| && RoleCovers(ms[i], permission, branch)
  {
    var es := ResolveEntitlements(ms);
    var e :| e in es && permission in e.permissions
      && (e.branchAccess.CompanyWide? || (branch.Some? && e.branchAccess.Restricted? && branch.value in e.branchAccess.branchIds));
    i :| 0 <= i < |es| && es[i] == e;
    EntitlementCovers(ms[i], permission, branch);
  }

  lemma MembershipCovers(ms: seq<Membership>, i: nat, permission: Permission, branch: Option<nat>)
    requires i < |ms| && RoleCovers(ms[i], permission, branch)
    ensures ScopeCovers(AccessScope(ResolveEntitlements(ms), permission), branch)
  {
    EntitlementCovers(ms[i], permission, branch);
    assert ResolveEntitlements(ms)[i] in ResolveEntitlements(ms);
  }

  /** The accumulated scope covers a branch, or NULL, exactly when one of the memberships does. */
  lemma ScopeCoversExact(ms: seq<Membership>, permission: Permission, branch: Option<nat>)
    ensures ScopeCovers(AccessScope(ResolveEntitlements(ms), permission), branch)
       <==> exists i :: 0 <= i < |ms| && RoleCovers(ms[i], permission, branch)
  {
    if ScopeCovers(AccessScope(ResolveEntitlements(ms), permission), branch) {
      var i := CoveringMembership(ms, permission, branch);
    }
    if i :| 0 <= i < |ms| && RoleCovers(ms[i], permission, branch) {
      MembershipCovers(ms, i, permission, branch);
    }
  }

  /** Filtering the memberships first, or testing all of them in full, is the same. */
  lemma SomeMembershipGrants(ms: seq<Membership>, actor: nat, companyId: nat, permission: Permission, branch: Option<nat>)
    ensures var mine := FindMemberships(ms, actor, companyId);
      (exists i :: 0 <= i < |mine| && RoleCovers(mine[i], permission, branch))
      <==> (exists j :: 0 <= j < |ms| && GrantsOn(ms[j], actor, companyId, permission, branch))
  {
    var mine := FindMemberships(ms, actor, companyId);
    if i :| 0 <= i < |mine| && RoleCovers(mine[i], permission, branch) {
      FindMembershipsExact(ms, actor, companyId, mine[i]);
      var j :| 0 <= j < |ms| && ms[j] == mine[i];
      assert GrantsOn(ms[j], actor, companyId, permission, branch);
    }
    if j :| 0 <= j < |ms| && GrantsOn(ms[j], actor, companyId, permission, branch) {
      FindMembershipsExact(ms, actor, companyId, ms[j]);
      var i :| 0 <= i < |mine| && mine[i] == ms[j];
      assert RoleCovers(mine[i], permission, branch);
    }
  }

  /** The SQL scope filter finds a booking exactly for an actor who may act on it. */
  lemma FoundMeansMayAct(db: Db, actor: nat, companyId: nat, permission: Permission, bookingId: nat)
    ensures FoundForCompany(db, companyId, ActorScope(db, actor, companyId, permission), bookingId)
       <==> MayActOn(db, actor, companyId, permission, bookingId)
  {
    if bookingId < |db.bookings| && db.bookings[bookingId].companyId == companyId {
      var branch := db.bookings[bookingId].branchId;
      ScopeCoversExact(FindMemberships(db.memberships, actor, companyId), permission, branch);
      SomeMembershipGrants(db.memberships, actor, companyId, permission, branch);
    }
  }

  /** The permission check of an agent create: some active membership of the actor grants it in that very branch. */
  lemma MayCreateMeans(db: Db, actor: nat, companyId: nat, branchId: nat)
    ensures CanExercisePermissionInBranch(ResolveEntitlements(FindMemberships(db.memberships, actor, companyId)), BookingsCreate, branchId)
       <==> exists i :: 0 <= i < |db.memberships| && GrantsOn(db.memberships[i], actor, companyId, BookingsCreate, Some(branchId))
  {
    var mine := FindMemberships(db.memberships, actor, companyId);
    CanExerciseMeansGranted(mine, BookingsCreate, branchId);
    SomeMembershipGrants(db.memberships, actor, companyId, BookingsCreate, Some(branchId));
    GrantedMeansCovered(mine, BookingsCreate, branchId);
  }

  lemma GrantedMeansCovered(ms: seq<Membership>, permission: Permission, branch: nat)
    ensures Granted(ms, permission, branch) <==> exists i :: 0 <= i < |ms| && RoleCovers(ms[i], permission, Some(branch))
  {
    if i :| 0 <= i < |ms| && Grants(ms[i], permission, branch) {
      assert RoleCovers(ms[i], permission, Some(branch));
    }
    if i :| 0 <= i < |ms| && RoleCovers(ms[i], permission, Some(branch)) {
      assert Grants(ms[i], permission, branch);
    }
  }

  /** An agent create that is not refused, fresh or replayed, was made by an actor who may create bookings in that branch. */
  lemma OnlyThePermittedCreate(db: Db, actor: nat, companyId: nat, branchId: nat, text: string, input: BookingInput, references: References, now: Instant)
    requires !Execute(db, CreateForAgent(actor, companyId, branchId, text, input, references), now).1.Refused?
    ensures exists i :: 0 <= i < |db.memberships| && GrantsOn(db.memberships[i], actor, companyId, BookingsCreate, Some(branchId))
  {
    assert CreateAgentBookingTx(db, actor, companyId, branchId, text, input, references, now).Success?;
    MayCreateMeans(db, actor, companyId, branchId);
  }

  datatype Demand = Demand(actor: nat, companyId: nat, permission: Permission, bookingId: nat)

  /** What a company call on an existing booking, payment or ticket asks its actor for. */
  function DemandOf(db: Db, call: Call): Option<Demand> {
    match call
    case CancelCompany(actor, companyId, bookingId) => Some(Demand(actor, companyId, BookingsCancel, bookingId))
    case PayAsCompany(actor, companyId, _, bookingId, _, _, _) => Some(Demand(actor, companyId, PaymentsConfirm, bookingId))
    case ConfirmCash(actor, companyId, p) =>
      if p < |db.payments| then Some(Demand(actor, companyId, PaymentsConfirm, db.payments[p].bookingId)) else None
    case RefundPayment(actor, companyId, p) =>
      if p < |db.payments| then Some(Demand(actor, companyId, PaymentsRefund, db.payments[p].bookingId)) else None
    case IssueForCompany(actor, companyId, bookingId, _) => Some(Demand(actor, companyId, TicketsIssue, bookingId))
    case ValidateTicket(actor, companyId, t) =>
      if t < |db.tickets| then Some(Demand(actor, companyId, TicketsValidate, db.tickets[t].bookingId)) else None
    case RevokeTicket(actor, companyId, t) =>
      if t < |db.tickets| then Some(Demand(actor, companyId, TicketsIssue, db.tickets[t].bookingId)) else None
    case _ => None
  }

  predicate IsCompanyCall(call: Call) {
    || call.CancelCompany? || call.PayAsCompany? || call.ConfirmCash? || call.RefundPayment?
    || call.IssueForCompany? || call.ValidateTicket? || call.RevokeTicket?
  }

  /** A company call that is not refused was made by an actor who may act on the very booking it touches. */
  lemma OnlyThePermittedAct(db: Db, call: Call, now: Instant)
    requires IsCompanyCall(call) && !Execute(db, call, now).1.Refused?
    ensures DemandOf(db, call).Some?
    ensures var d := DemandOf(db, call).value; MayActOn(db, d.actor, d.companyId, d.permission, d.bookingId)
  {
    FoundWhenNotRefused(db, call, now);
    var d := DemandOf(db, call).value;
    FoundMeansMayAct(db, d.actor, d.companyId, d.permission, d.bookingId);
  }

  lemma FoundWhenNotRefused(db: Db, call: Call, now: Instant)
    requires IsCompanyCall(call) && !Execute(db, call, now).1.Refused?
    ensures DemandOf(db, call).Some?
    ensures var d := DemandOf(db, call).value;
      FoundForCompany(db, d.companyId, ActorScope(db, d.actor, d.companyId, d.permission), d.bookingId)
  {
  }
}
