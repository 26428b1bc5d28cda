/**
 Seeding permissions, built-in roles and their grants (alembic/seeds/rbac_seed.py,
 alembic/seeds/isp_seed.py and the order of the passes in alembic/env.py).
 */
module RbacSeed {
  import opened Common

  datatype Resource =
    | CLIENTS | ORDERS | PAYMENTS | USERS | ROLES | PERMISSIONS | COMPANY | DASHBOARD | TASKS | INTEGRATIONS | MOBILE
    | AUDIT_LOGS | WEB | CASH_SESSIONS | COLLECTION_AREAS | CAPTIVE | WORKFLOWS
    | SERVICE_PLANS | CLIENT_SERVICES | DEVICE_TYPES | WAREHOUSES | INVENTORY_ITEMS | EQUIPMENT_EVENTS | TOPOLOGIES
    | PLAYBOOKS | PROVISIONING | INSIGHTS | NETWORK_ACCESS | DEVICE_CREDENTIALS | ACS_DEVICES
    | PROVISIONING_SETTINGS | ACS_REGISTRATIONS | NETWORK_AUDIT

  /** RUN stands for the action named "action". */
  datatype Action =
    | CREATE | READ | UPDATE | DELETE
    | REVERT_PAYMENT | CHANGE_STATUS | RECORD | REFUND | TECHNICIAN_APP | COLLECTOR_APP | ACCESS | REVIEW
    | SUSPEND | REACTIVATE | GENERATE | ADOPT | CANCEL | EXECUTE | REVEAL | RUN
    | OtherAction(text: string)

  /** A permission name: "resource.action", or one that no seed knows. */
  datatype Name = Of(resource: Resource, action: Action) | Custom(text: string)

  datatype RoleName = ADMIN | VIEWER | TECHNICIAN | COLLECTOR | CAPTIVE_PORTAL | CustomRole(text: string)

  /** `company` None marks a global role. */
  datatype Role = Role(name: RoleName, company: Option<Id>)
  datatype Grant = Grant(role: Id, permission: Name)

  /** Permissions by their unique name with the action column, roles by key, and the grants. */
  datatype Rbac = Rbac(permissions: map<Name, Action>, roles: map<Id, Role>, grants: set<Grant>)

  /* ---------- What is seeded ---------- */

  function Crud(resources: set<Resource>): set<Name> {
    set r, a | r in resources && a in {CREATE, READ, UPDATE, DELETE} :: Of(r, a)
  }

  function BaseNames(): set<Name> {
    Crud({CLIENTS, ORDERS, USERS, ROLES, PERMISSIONS, TASKS, INTEGRATIONS, WORKFLOWS}) +
    {Of(ORDERS, REVERT_PAYMENT), Of(ORDERS, CHANGE_STATUS), Of(PAYMENTS, RECORD), Of(PAYMENTS, READ), Of(PAYMENTS, REFUND),
     Of(COMPANY, READ), Of(COMPANY, UPDATE), Of(DASHBOARD, READ), Of(MOBILE, TECHNICIAN_APP), Of(MOBILE, COLLECTOR_APP),
     Of(AUDIT_LOGS, READ), Of(WEB, ACCESS), Of(CASH_SESSIONS, REVIEW), Of(COLLECTION_AREAS, READ),
     Of(COLLECTION_AREAS, UPDATE), Of(CAPTIVE, ACCESS)}
  }

  function IspNames(): set<Name> {
    Crud({SERVICE_PLANS, CLIENT_SERVICES, DEVICE_TYPES, WAREHOUSES, INVENTORY_ITEMS, TOPOLOGIES, PLAYBOOKS, INSIGHTS,
          NETWORK_ACCESS, DEVICE_CREDENTIALS, ACS_REGISTRATIONS}) +
    {Of(CLIENT_SERVICES, SUSPEND), Of(CLIENT_SERVICES, REACTIVATE), Of(CLIENT_SERVICES, GENERATE),
     Of(CLIENT_SERVICES, ADOPT), Of(CLIENT_SERVICES, CANCEL), Of(EQUIPMENT_EVENTS, CREATE), Of(EQUIPMENT_EVENTS, READ),
     Of(PROVISIONING, READ), Of(PROVISIONING, CREATE), Of(PROVISIONING, EXECUTE), Of(PROVISIONING, CANCEL),
     Of(DEVICE_CREDENTIALS, REVEAL), Of(ACS_DEVICES, READ), Of(ACS_DEVICES, RUN),
     Of(PROVISIONING_SETTINGS, READ), Of(PROVISIONING_SETTINGS, UPDATE), Of(NETWORK_AUDIT, READ)}
  }

  function IspRoles(): seq<RoleName> {
    [TECHNICIAN, COLLECTOR, CAPTIVE_PORTAL]
  }

  function GrantsOf(name: RoleName): set<Name> {
    match name
    case TECHNICIAN =>
      {Of(TASKS, CREATE), Of(TASKS, READ), Of(TASKS, UPDATE), Of(CLIENTS, READ), Of(CLIENTS, UPDATE),
       Of(CLIENT_SERVICES, READ), Of(CLIENT_SERVICES, UPDATE), Of(INVENTORY_ITEMS, READ), Of(INVENTORY_ITEMS, UPDATE),
       Of(EQUIPMENT_EVENTS, CREATE), Of(EQUIPMENT_EVENTS, READ), Of(WAREHOUSES, READ), Of(DEVICE_TYPES, READ),
       Of(TOPOLOGIES, READ), Of(PROVISIONING, READ), Of(DASHBOARD, READ), Of(INSIGHTS, READ),
       Of(ACS_REGISTRATIONS, CREATE), Of(ACS_REGISTRATIONS, READ), Of(ACS_DEVICES, READ),
       Of(MOBILE, TECHNICIAN_APP), Of(SERVICE_PLANS, READ)}
    case COLLECTOR =>
      {Of(TASKS, READ), Of(CLIENTS, READ), Of(PAYMENTS, READ), Of(PAYMENTS, RECORD), Of(ORDERS, READ),
       Of(CLIENT_SERVICES, READ), Of(MOBILE, COLLECTOR_APP), Of(TASKS, CREATE), Of(SERVICE_PLANS, READ),
       Of(INVENTORY_ITEMS, READ)}
    case CAPTIVE_PORTAL => {Of(CAPTIVE, ACCESS)}
    case _ => {}
  }

  /* ---------- The statements ---------- */

  /** The action column of a seeded permission. */
  function ActionOf(n: Name): Action {
    match n
    case Of(_, action) => action
    case Custom(text) => OtherAction(text)
  }

  /** INSERT ... ON CONFLICT (name) DO NOTHING. */
  function WithNames(permissions: map<Name, Action>, names: set<Name>): map<Name, Action> {
    map n | n in permissions.Keys + names :: if n in permissions then permissions[n] else ActionOf(n)
  }

  predicate IsGlobal(roles: map<Id, Role>, r: Id, name: RoleName) {
    r in roles && roles[r] == Role(name, None)
  }

  /** Every global ADMIN with every one of `names`. */
  function AdminGrants(roles: map<Id, Role>, names: set<Name>): set<Grant> {
    set r, n | r in roles && n in names && IsGlobal(roles, r, ADMIN) :: Grant(r, n)
  }

  /** VIEWER_PERMISSION_FILTER */
  predicate ViewerSees(n: Name, action: Action) {
    (action == READ && n != Of(DEVICE_CREDENTIALS, READ)) || n == Of(WEB, ACCESS)
  }

  function ViewerGrants(db: Rbac): set<Grant> {
    set r, n | r in db.roles && n in db.permissions && IsGlobal(db.roles, r, VIEWER) && ViewerSees(n, db.permissions[n]) ::
      Grant(r, n)
  }

  /** The grants of `target` that follow from grants of `source`. */
  function Copied(db: Rbac, source: Name, target: Name): set<Grant> {
    set g | g in db.grants && g.permission == source && source in db.permissions && target in db.permissions ::
      Grant(g.role, target)
  }

  function Copy(db: Rbac, source: Name, target: Name): Rbac {
    db.(grants := db.grants + Copied(db, source, target))
  }

  function CopyAll(db: Rbac): Rbac {
    Copy(Copy(Copy(db, Of(ORDERS, UPDATE), Of(PAYMENTS, RECORD)),
              Of(ORDERS, READ), Of(PAYMENTS, READ)),
         Of(ORDERS, REVERT_PAYMENT), Of(PAYMENTS, REFUND))
  }

  /** Steps 1 to 3: permissions, ADMIN, VIEWER. */
  function Granted(db: Rbac): Rbac {
    var named := db.(permissions := WithNames(db.permissions, BaseNames()));
    var admin := named.(grants := named.grants + AdminGrants(named.roles, named.permissions.Keys));
    admin.(grants := admin.grants + ViewerGrants(admin))
  }

  /** _ensure_convergent_rbac */
  function Reconcile(db: Rbac): Rbac {
    CopyAll(Granted(db))
  }

  /* ---------- Reconciliation is a closure ---------- */

  predicate Derives(source: Name, target: Name) {
    || (source == Of(ORDERS, UPDATE) && target == Of(PAYMENTS, RECORD))
    || (source == Of(ORDERS, READ) && target == Of(PAYMENTS, READ))
    || (source == Of(ORDERS, REVERT_PAYMENT) && target == Of(PAYMENTS, REFUND))
  }

  ghost predicate AdminHoldsAll(db: Rbac, grants: set<Grant>) {
    forall r, n | IsGlobal(db.roles, r, ADMIN) && n in db.permissions :: Grant(r, n) in grants
  }

  ghost predicate ViewerHoldsReads(db: Rbac, grants: set<Grant>) {
    forall r, n | IsGlobal(db.roles, r, VIEWER) && n in db.permissions && ViewerSees(n, db.permissions[n]) :: Grant(r, n) in grants
  }

  ghost predicate LedgerFollowsOrders(db: Rbac, grants: set<Grant>) {
    forall g, target | g in grants && Derives(g.permission, target) && g.permission in db.permissions && target in db.permissions ::
      Grant(g.role, target) in grants
  }

  /** What reconciliation is meant to establish. */
  ghost predicate ClosedUnder(db: Rbac, grants: set<Grant>) {
    AdminHoldsAll(db, grants) && ViewerHoldsReads(db, grants) && LedgerFollowsOrders(db, grants)
  }

  ghost predicate Closed(db: Rbac) {
    BaseNames() <= db.permissions.Keys && ClosedUnder(db, db.grants)
  }

  ghost predicate Includes(a: map<Name, Action>, b: map<Name, Action>) {
    forall n | n in a :: n in b && b[n] == a[n]
  }

  /** Every row of `a` is in `b`. */
  ghost predicate Below(a: Rbac, b: Rbac) {
    && Includes(a.permissions, b.permissions)
    && (forall r | r in a.roles :: r in b.roles && b.roles[r] == a.roles[r])
    && a.grants <= b.grants
  }

  lemma ReconcileExtends(db: Rbac)
    ensures Below(db, Reconcile(db)) && Reconcile(db).roles == db.roles
    ensures Reconcile(db).permissions == WithNames(db.permissions, BaseNames())
  {
  }

  /** A grant after the copies was there before, or is the target of one that was. */
  lemma CopyAllIff(db: Rbac, g: Grant)
    ensures g in CopyAll(db).grants <==>
            g in db.grants ||
            (g.permission in db.permissions &&
             exists source :: Derives(source, g.permission) && source in db.permissions && Grant(g.role, source) in db.grants)
  {
    var one := Copy(db, Of(ORDERS, UPDATE), Of(PAYMENTS, RECORD));
    var two := Copy(one, Of(ORDERS, READ), Of(PAYMENTS, READ));
    CopyIff(db, Of(ORDERS, UPDATE), Of(PAYMENTS, RECORD), g);
    CopyIff(one, Of(ORDERS, READ), Of(PAYMENTS, READ), g);
    CopyIff(two, Of(ORDERS, REVERT_PAYMENT), Of(PAYMENTS, REFUND), g);
    CopyIff(db, Of(ORDERS, UPDATE), Of(PAYMENTS, RECORD), Grant(g.role, Of(ORDERS, READ)));
    CopyIff(db, Of(ORDERS, UPDATE), Of(PAYMENTS, RECORD), Grant(g.role, Of(ORDERS, REVERT_PAYMENT)));
    CopyIff(one, Of(ORDERS, READ), Of(PAYMENTS, READ), Grant(g.role, Of(ORDERS, REVERT_PAYMENT)));
  }

  lemma CopyIff(db: Rbac, source: Name, target: Name, g: Grant)
    ensures g in Copy(db, source, target).grants <==>
            g in db.grants ||
            (g.permission == target && target in db.permissions && source in db.permissions && Grant(g.role, source) in db.grants)
  {
    if g.permission == target && target in db.permissions && source in db.permissions && Grant(g.role, source) in db.grants {
      assert Grant(Grant(g.role, source).role, target) in Copied(db, source, target);
    }
  }

  lemma ReconcileCloses(db: Rbac)
    ensures Closed(Reconcile(db))
  {
    var mid, after := Granted(db), Reconcile(db);
    forall g, target | g in after.grants && Derives(g.permission, target) && g.permission in after.permissions && target in after.permissions
      ensures Grant(g.role, target) in after.grants
    {
      CopyAllIff(mid, g);
      CopyAllIff(mid, Grant(g.role, target));
    }
    forall r, n | IsGlobal(after.roles, r, ADMIN) && n in after.permissions ensures Grant(r, n) in after.grants {
      CopyAllIff(mid, Grant(r, n));
    }
    forall r, n | IsGlobal(after.roles, r, VIEWER) && n in after.permissions && ViewerSees(n, after.permissions[n])
      ensures Grant(r, n) in after.grants
    {
      CopyAllIff(mid, Grant(r, n));
    }
  }

  /** No smaller set of grants would do. */
  lemma ReconcileIsLeast(db: Rbac, grants: set<Grant>)
    requires db.grants <= grants && ClosedUnder(Reconcile(db), grants)
    ensures Reconcile(db).grants <= grants
  {
    var mid := Granted(db);
    forall g | g in Reconcile(db).grants ensures g in grants {
      CopyAllIff(mid, g);
      assert g in mid.grants ==> g in grants;
      if g !in mid.grants {
        var source :| Derives(source, g.permission) && source in mid.permissions && Grant(g.role, source) in mid.grants;
        assert Grant(g.role, source) in grants;
      }
    }
  }

  lemma ClosedIsFixed(db: Rbac)
    requires Closed(db)
    ensures Reconcile(db) == db
  {
    assert WithNames(db.permissions, BaseNames()) == db.permissions;
    ReconcileExtends(db);
    ReconcileIsLeast(db, db.grants);
  }

  lemma ReconcileIdempotent(db: Rbac)
    ensures Reconcile(Reconcile(db)) == Reconcile(db)
  {
    ReconcileCloses(db);
    ClosedIsFixed(Reconcile(db));
  }

  /** A permission that only `b` has carries the action it would have been seeded with. */
  ghost predicate SeededAlike(a: map<Name, Action>, b: map<Name, Action>, names: set<Name>) {
    forall n | n in names && n !in a && n in b :: b[n] == ActionOf(n)
  }

  lemma WithNamesMonotoneIff(a: map<Name, Action>, b: map<Name, Action>, names: set<Name>)
    requires Includes(a, b)
    ensures Includes(WithNames(a, names), WithNames(b, names)) <==> SeededAlike(a, b, names)
  {
    forall n | n in names && n !in a && n in b && Includes(WithNames(a, names), WithNames(b, names)) ensures b[n] == ActionOf(n) {
      assert WithNames(a, names)[n] == WithNames(b, names)[n];
    }
  }

  /** More rows leave more to be closed. */
  lemma ClosedAbove(a: Rbac, b: Rbac, grants: set<Grant>)
    requires Includes(a.permissions, b.permissions) && forall r | r in a.roles :: r in b.roles && b.roles[r] == a.roles[r]
    requires ClosedUnder(b, grants)
    ensures ClosedUnder(a, grants)
  {
  }

  /** Reconciliation keeps the order of databases, unless one renamed the action of a permission the other lacks. */
  lemma ReconcileMonotoneIff(a: Rbac, b: Rbac)
    requires Below(a, b)
    ensures Below(Reconcile(a), Reconcile(b)) <==> SeededAlike(a.permissions, b.permissions, BaseNames())
  {
    ReconcileExtends(a);
    ReconcileExtends(b);
    WithNamesMonotoneIff(a.permissions, b.permissions, BaseNames());
    if SeededAlike(a.permissions, b.permissions, BaseNames()) {
      GrantsMonotone(a, b);
    }
  }

  lemma GrantsMonotone(a: Rbac, b: Rbac)
    requires Below(a, b) && Includes(Reconcile(a).permissions, Reconcile(b).permissions)
    ensures Reconcile(a).grants <= Reconcile(b).grants
  {
    var less, more := Reconcile(a), Reconcile(b);
    ReconcileExtends(a);
    ReconcileExtends(b);
    ReconcileCloses(b);
    ClosedAbove(less, more, more.grants);
    ReconcileIsLeast(a, more.grants);
  }

  /* ---------- One run of all the passes ---------- */

  /** The keys used: new roles on an empty database, and the row fetched or inserted for each ISP role. */
  datatype Choices = Choices(admin: Id, viewer: Id, technician: Id, collector: Id, portal: Id)

  predicate IsIspRole(name: RoleName) {
    name in IspRoles()
  }

  /** Some global role carries `name`. */
  predicate Exists(roles: map<Id, Role>, name: RoleName) {
    exists r :: r in roles && IsGlobal(roles, r, name)
  }

  /** One of the rows named `name` when there are any, and a new key otherwise. */
  predicate FetchedOrNew(roles: map<Id, Role>, name: RoleName, r: Id) {
    if Exists(roles, name) then IsGlobal(roles, r, name) else r !in roles
  }

  predicate ChoicesOk(roles: map<Id, Role>, c: Choices) {
    && c.admin !in roles && c.viewer !in roles && c.admin != c.viewer
    && c.admin !in {c.technician, c.collector, c.portal} && c.viewer !in {c.technician, c.collector, c.portal}
    && c.technician != c.collector && c.technician != c.portal && c.collector != c.portal
    && FetchedOrNew(roles, TECHNICIAN, c.technician)
    && FetchedOrNew(roles, COLLECTOR, c.collector)
    && FetchedOrNew(roles, CAPTIVE_PORTAL, c.portal)
  }

  /** seed_rbac_data on a database without roles, before it reconciles. */
  function Fresh(db: Rbac, c: Choices): Rbac {
    var permissions := WithNames(db.permissions, BaseNames());
    var roles := db.roles[c.admin := Role(ADMIN, None)][c.viewer := Role(VIEWER, None)];
    Rbac(permissions, roles, db.grants + set n | n in permissions :: Grant(c.admin, n))
  }

  function SeedRbac(db: Rbac, c: Choices): Rbac {
    Reconcile(if db.roles == map[] then Fresh(db, c) else db)
  }

  /** _seed_permissions */
  function SeedIspPermissions(db: Rbac): Rbac {
    var named := db.(permissions := WithNames(db.permissions, IspNames()));
    named.(grants := named.grants + AdminGrants(named.roles, IspNames()))
  }

  /** The permissions of an ISP role that exist, for role `r`. */
  function RoleGrants(db: Rbac, name: RoleName, r: Id): set<Grant> {
    set n | n in GrantsOf(name) && n in db.permissions :: Grant(r, n)
  }

  /** One turn of _seed_roles, with `r` the row fetched or inserted. */
  function SeedRole(db: Rbac, name: RoleName, r: Id): Rbac {
    db.(roles := if Exists(db.roles, name) then db.roles else db.roles[r := Role(name, None)],
        grants := db.grants + RoleGrants(db, name, r))
  }

  function SeedIspRoles(db: Rbac, c: Choices): Rbac {
    SeedRole(SeedRole(SeedRole(db, TECHNICIAN, c.technician), COLLECTOR, c.collector), CAPTIVE_PORTAL, c.portal)
  }

  /** _run_seeds; `isp` tells whether the client_service table exists. */
  function Run(db: Rbac, isp: bool, c: Choices): Rbac {
    var base := SeedRbac(db, c);
    if isp then Reconcile(SeedIspRoles(SeedIspPermissions(base), c)) else base
  }

  /** The grants of the ISP role `name` are held by every global role of that name, and there is one. */
  ghost predicate RoleSettled(db: Rbac, name: RoleName) {
    && Exists(db.roles, name)
    && forall r | IsGlobal(db.roles, r, name) :: RoleGrants(db, name, r) <= db.grants
  }

  /** Nothing is left for a run to add. */
  ghost predicate Settled(db: Rbac, isp: bool) {
    && db.roles != map[] && Closed(db)
    && (isp ==> IspNames() <= db.permissions.Keys &&
                RoleSettled(db, TECHNICIAN) && RoleSettled(db, COLLECTOR) && RoleSettled(db, CAPTIVE_PORTAL))
  }

  /** At most one global role of the name; nothing in the schema enforces it. */
  ghost predicate AtMostOne(roles: map<Id, Role>, name: RoleName) {
    forall a, b | IsGlobal(roles, a, name) && IsGlobal(roles, b, name) :: a == b
  }

  lemma SeedIspPermissionsFixed(db: Rbac)
    requires AdminHoldsAll(db, db.grants) && IspNames() <= db.permissions.Keys
    ensures SeedIspPermissions(db) == db
  {
    assert WithNames(db.permissions, IspNames()) == db.permissions;
    assert AdminGrants(db.roles, IspNames()) <= db.grants;
  }

  /** A settled database is left alone. */
  lemma SettledIsFixed(db: Rbac, isp: bool, c: Choices)
    requires Settled(db, isp) && ChoicesOk(db.roles, c)
    ensures Run(db, isp, c) == db
  {
    ClosedIsFixed(db);
    if isp {
      SeedIspPermissionsFixed(db);
      assert SeedRole(db, TECHNICIAN, c.technician) == db;
      assert SeedRole(db, COLLECTOR, c.collector) == db;
      assert SeedRole(db, CAPTIVE_PORTAL, c.portal) == db;
    }
  }

  /** Seeding one role does not concern the others. */
  lemma OtherRoleKept(db: Rbac, name: RoleName, r: Id, other: RoleName)
    requires FetchedOrNew(db.roles, name, r) && other != name
    ensures var after := SeedRole(db, name, r);
            && (Exists(after.roles, other) <==> Exists(db.roles, other))
            && (forall q :: IsGlobal(after.roles, q, other) <==> IsGlobal(db.roles, q, other))
  {
    var after := SeedRole(db, name, r);
    forall q ensures IsGlobal(after.roles, q, other) <==> IsGlobal(db.roles, q, other) {
    }
    if q :| q in after.roles && IsGlobal(after.roles, q, other) {
      assert IsGlobal(db.roles, q, other);
    }
    if q :| q in db.roles && IsGlobal(db.roles, q, other) {
      assert IsGlobal(after.roles, q, other);
    }
  }

  lemma SeedRbacCloses(db: Rbac, c: Choices)
    ensures Closed(SeedRbac(db, c)) && SeedRbac(db, c).roles != map[]
  {
    var start := if db.roles == map[] then Fresh(db, c) else db;
    ReconcileCloses(start);
    ReconcileExtends(start);
    assert c.admin in Fresh(db, c).roles;
  }

  /** ADMIN and VIEWER are the only roles that the first seed creates. */
  function StartRoles(roles: map<Id, Role>, c: Choices): map<Id, Role> {
    if roles == map[] then roles[c.admin := Role(ADMIN, None)][c.viewer := Role(VIEWER, None)] else roles
  }

  lemma SeedRbacRoles(db: Rbac, c: Choices)
    ensures SeedRbac(db, c).roles == StartRoles(db.roles, c)
  {
    ReconcileExtends(if db.roles == map[] then Fresh(db, c) else db);
  }

  lemma StartKeepsIspRows(roles: map<Id, Role>, c: Choices, name: RoleName)
    requires c.admin !in roles && c.viewer !in roles && IsIspRole(name)
    ensures forall r :: IsGlobal(StartRoles(roles, c), r, name) <==> IsGlobal(roles, r, name)
    ensures Exists(StartRoles(roles, c), name) <==> Exists(roles, name)
  {
    SameRowsExist(StartRoles(roles, c), roles, name);
  }

  lemma SameRowsExist(a: map<Id, Role>, b: map<Id, Role>, name: RoleName)
    requires forall r :: IsGlobal(a, r, name) <==> IsGlobal(b, r, name)
    ensures Exists(a, name) <==> Exists(b, name)
  {
    if r :| r in a && IsGlobal(a, r, name) {
      assert IsGlobal(b, r, name);
    }
    if r :| r in b && IsGlobal(b, r, name) {
      assert IsGlobal(a, r, name);
    }
  }

  lemma RowStaysFetched(roles: map<Id, Role>, c: Choices, name: RoleName, r: Id)
    requires c.admin !in roles && c.viewer !in roles && IsIspRole(name)
    requires FetchedOrNew(roles, name, r) && r != c.admin && r != c.viewer
    ensures FetchedOrNew(StartRoles(roles, c), name, r)
  {
    StartKeepsIspRows(roles, c, name);
  }

  lemma FetchedStays(db: Rbac, c: Choices)
    requires ChoicesOk(db.roles, c)
    ensures var roles := SeedRbac(db, c).roles;
            && FetchedOrNew(roles, TECHNICIAN, c.technician) && FetchedOrNew(roles, COLLECTOR, c.collector)
            && FetchedOrNew(roles, CAPTIVE_PORTAL, c.portal)
  {
    SeedRbacRoles(db, c);
    RowStaysFetched(db.roles, c, TECHNICIAN, c.technician);
    RowStaysFetched(db.roles, c, COLLECTOR, c.collector);
    RowStaysFetched(db.roles, c, CAPTIVE_PORTAL, c.portal);
  }

  lemma NewKey(used: set<Id>) returns (id: Id)
    ensures forall x | x in used :: x < id
    decreases |used|
  {
    id := 0;
    if used != {} {
      NonEmpty(used);
      var x :| x in used;
      var rest := used - {x};
      var bound := NewKey(rest);
      id := if bound <= x then x + 1 else bound;
      forall y | y in used ensures y < id {
        assert y == x || y in rest;
      }
    }
  }

  /** Some choice is always possible, and any global row of an ISP role can be the one fetched. */
  lemma ChoicesExist(roles: map<Id, Role>, technician: Option<Id>, collector: Option<Id>, portal: Option<Id>) returns (c: Choices)
    requires technician.Some? ==> IsGlobal(roles, technician.value, TECHNICIAN)
    requires collector.Some? ==> IsGlobal(roles, collector.value, COLLECTOR)
    requires portal.Some? ==> IsGlobal(roles, portal.value, CAPTIVE_PORTAL)
    ensures ChoicesOk(roles, c)
    ensures technician.Some? ==> c.technician == technician.value
    ensures collector.Some? ==> c.collector == collector.value
    ensures portal.Some? ==> c.portal == portal.value
  {
    var id := NewKey(roles.Keys);
    var t := SomeRow(roles, TECHNICIAN, technician, id + 2);
    var k := SomeRow(roles, COLLECTOR, collector, id + 3);
    var p := SomeRow(roles, CAPTIVE_PORTAL, portal, id + 4);
    c := Choices(id, id + 1, t, k, p);
    assert id !in roles && id + 1 !in roles && id + 2 !in roles && id + 3 !in roles && id + 4 !in roles;
  }

  lemma SomeRow(roles: map<Id, Role>, name: RoleName, wanted: Option<Id>, unused: Id) returns (r: Id)
    requires wanted.Some? ==> IsGlobal(roles, wanted.value, name)
    requires unused !in roles
    ensures FetchedOrNew(roles, name, r) && (wanted.Some? ==> r == wanted.value) && (r in roles || r == unused)
    ensures r in roles ==> roles[r] == Role(name, None)
  {
    if wanted.Some? {
      r := wanted.value;
    } else if Exists(roles, name) {
      r :| r in roles && IsGlobal(roles, r, name);
    } else {
      r := unused;
    }
  }

  ghost predicate RowHolds(db: Rbac, name: RoleName, r: Id) {
    IsGlobal(db.roles, r, name) && RoleGrants(db, name, r) <= db.grants
  }

  lemma SeededRowsHold(db: Rbac, c: Choices)
    requires FetchedOrNew(db.roles, TECHNICIAN, c.technician) && FetchedOrNew(db.roles, COLLECTOR, c.collector)
    requires FetchedOrNew(db.roles, CAPTIVE_PORTAL, c.portal)
    requires c.technician != c.collector && c.technician != c.portal && c.collector != c.portal
    ensures var after := SeedIspRoles(db, c);
            && RowHolds(after, TECHNICIAN, c.technician) && RowHolds(after, COLLECTOR, c.collector)
            && RowHolds(after, CAPTIVE_PORTAL, c.portal) && after.permissions == db.permissions
  {
    var one := SeedRole(db, TECHNICIAN, c.technician);
    var two := SeedRole(one, COLLECTOR, c.collector);
    var after := SeedIspRoles(db, c);
    OtherRoleKept(db, TECHNICIAN, c.technician, COLLECTOR);
    OtherRoleKept(db, TECHNICIAN, c.technician, CAPTIVE_PORTAL);
    OtherRoleKept(one, COLLECTOR, c.collector, CAPTIVE_PORTAL);
    assert RoleGrants(one, COLLECTOR, c.collector) == RoleGrants(after, COLLECTOR, c.collector);
    assert RoleGrants(db, TECHNICIAN, c.technician) == RoleGrants(after, TECHNICIAN, c.technician);
    assert RoleGrants(two, CAPTIVE_PORTAL, c.portal) == RoleGrants(after, CAPTIVE_PORTAL, c.portal);
  }

  lemma ReconcileKeepsRow(db: Rbac, name: RoleName, r: Id)
    requires RowHolds(db, name, r) && BaseNames() <= db.permissions.Keys
    ensures RowHolds(Reconcile(db), name, r)
  {
    ReconcileExtends(db);
    WithKnownNames(db.permissions, BaseNames());
  }

  lemma WithKnownNames(permissions: map<Name, Action>, names: set<Name>)
    requires names <= permissions.Keys
    ensures WithNames(permissions, names) == permissions
  {
  }

  /** The chosen row of each ISP role holds its grants after a run. */
  lemma ChosenRowHolds(db: Rbac, c: Choices)
    requires ChoicesOk(db.roles, c)
    ensures var after := Run(db, true, c);
            && Closed(after) && after.roles != map[] && IspNames() <= after.permissions.Keys
            && RowHolds(after, TECHNICIAN, c.technician) && RowHolds(after, COLLECTOR, c.collector)
            && RowHolds(after, CAPTIVE_PORTAL, c.portal)
  {
    SeedRbacCloses(db, c);
    FetchedStays(db, c);
    var base := SeedIspPermissions(SeedRbac(db, c));
    var seeded := SeedIspRoles(base, c);
    SeededRowsHold(base, c);
    ReconcileCloses(seeded);
    ReconcileExtends(seeded);
    ReconcileKeepsRow(seeded, TECHNICIAN, c.technician);
    ReconcileKeepsRow(seeded, COLLECTOR, c.collector);
    ReconcileKeepsRow(seeded, CAPTIVE_PORTAL, c.portal);
  }

  /* ---------- What a run adds, and nothing else ---------- */

  ghost predicate IsFreshRole(roles: map<Id, Role>, c: Choices, r: Id, role: Role) {
    roles == map[] && ((r == c.admin && role == Role(ADMIN, None)) || (r == c.viewer && role == Role(VIEWER, None)))
  }

  /** An ISP role that no global row carries is inserted under the chosen key. */
  ghost predicate IsNewIspRole(roles: map<Id, Role>, c: Choices, r: Id, role: Role) {
    exists name :: IsIspRole(name) && !Exists(roles, name) && r == ChosenFor(c, name) && role == Role(name, None)
  }

  lemma SeededRoleRows(db: Rbac, name: RoleName, q: Id, r: Id)
    ensures r in SeedRole(db, name, q).roles && !(r in db.roles && SeedRole(db, name, q).roles[r] == db.roles[r]) ==>
              !Exists(db.roles, name) && r == q && SeedRole(db, name, q).roles[r] == Role(name, None)
  {
  }

  /** Roles after a run: those of before, ADMIN and VIEWER if there were none, and the ISP roles that were missing. */
  lemma RolesOfRun(db: Rbac, isp: bool, c: Choices, r: Id)
    requires ChoicesOk(db.roles, c) && r in Run(db, isp, c).roles && r !in db.roles
    ensures IsFreshRole(db.roles, c, r, Run(db, isp, c).roles[r]) || (isp && IsNewIspRole(db.roles, c, r, Run(db, isp, c).roles[r]))
  {
    var base := SeedRbac(db, c);
    SeedRbacRoles(db, c);
    StartRolesAre(db.roles, c, r);
    if isp && r !in base.roles {
      FetchedStays(db, c);
      IspStageRoles(base, c, r);
      MissingAtStart(db.roles, c, r, Run(db, isp, c).roles[r]);
    } else if isp {
      RunExtends(db, isp, c);
    }
  }

  lemma StartRolesAre(roles: map<Id, Role>, c: Choices, r: Id)
    ensures r in StartRoles(roles, c) && r !in roles ==> IsFreshRole(roles, c, r, StartRoles(roles, c)[r])
  {
  }

  lemma MissingAtStart(roles: map<Id, Role>, c: Choices, r: Id, role: Role)
    requires c.admin !in roles && c.viewer !in roles && IsNewIspRole(StartRoles(roles, c), c, r, role)
    ensures IsNewIspRole(roles, c, r, role)
  {
    StartKeepsIspRows(roles, c, role.name);
  }

  lemma IspStageRoles(base: Rbac, c: Choices, r: Id)
    requires FetchedOrNew(base.roles, TECHNICIAN, c.technician) && FetchedOrNew(base.roles, COLLECTOR, c.collector)
    requires FetchedOrNew(base.roles, CAPTIVE_PORTAL, c.portal)
    requires c.technician != c.collector && c.technician != c.portal && c.collector != c.portal
    requires r in Reconcile(SeedIspRoles(SeedIspPermissions(base), c)).roles && r !in base.roles
    ensures IsNewIspRole(base.roles, c, r, Reconcile(SeedIspRoles(SeedIspPermissions(base), c)).roles[r])
  {
    ReconcileExtends(SeedIspRoles(SeedIspPermissions(base), c));
    NewIspRoleOf(SeedIspPermissions(base), c, r);
  }

  lemma NewIspRoleOf(db: Rbac, c: Choices, r: Id)
    requires FetchedOrNew(db.roles, TECHNICIAN, c.technician) && FetchedOrNew(db.roles, COLLECTOR, c.collector)
    requires FetchedOrNew(db.roles, CAPTIVE_PORTAL, c.portal)
    requires c.technician != c.collector && c.technician != c.portal && c.collector != c.portal
    requires r in SeedIspRoles(db, c).roles && r !in db.roles
    ensures IsNewIspRole(db.roles, c, r, SeedIspRoles(db, c).roles[r])
  {
    var one := SeedRole(db, TECHNICIAN, c.technician);
    var two := SeedRole(one, COLLECTOR, c.collector);
    OtherRoleKept(db, TECHNICIAN, c.technician, COLLECTOR);
    OtherRoleKept(db, TECHNICIAN, c.technician, CAPTIVE_PORTAL);
    OtherRoleKept(one, COLLECTOR, c.collector, CAPTIVE_PORTAL);
    SeededRoleRows(db, TECHNICIAN, c.technician, r);
    SeededRoleRows(one, COLLECTOR, c.collector, r);
    SeededRoleRows(two, CAPTIVE_PORTAL, c.portal, r);
    assert IsIspRole(TECHNICIAN) && IsIspRole(COLLECTOR) && IsIspRole(CAPTIVE_PORTAL);
  }

  lemma SeededNamesAreKnown(n: Name)
    ensures n in BaseNames() + IspNames() ==> n.Of?
  {
  }

  lemma WithMoreNames(permissions: map<Name, Action>, a: set<Name>, b: set<Name>)
    ensures WithNames(WithNames(permissions, a), b) == WithNames(permissions, a + b)
  {
  }

  lemma SeedRbacPermissions(db: Rbac, c: Choices)
    ensures SeedRbac(db, c).permissions == WithNames(db.permissions, BaseNames())
  {
    var start := if db.roles == map[] then Fresh(db, c) else db;
    ReconcileExtends(start);
    WithMoreNames(db.permissions, BaseNames(), BaseNames());
    assert BaseNames() + BaseNames() == BaseNames();
  }

  lemma IspPermissions(base: Rbac, c: Choices)
    ensures Reconcile(SeedIspRoles(SeedIspPermissions(base), c)).permissions == WithNames(WithNames(base.permissions, IspNames()), BaseNames())
  {
    ReconcileExtends(SeedIspRoles(SeedIspPermissions(base), c));
  }

  lemma WithNamesTwice(permissions: map<Name, Action>, a: set<Name>, b: set<Name>)
    ensures WithNames(WithNames(WithNames(permissions, a), b), a) == WithNames(permissions, a + b)
  {
  }

  lemma RunPermissions(db: Rbac, isp: bool, c: Choices)
    ensures Run(db, isp, c).permissions == if isp then WithNames(db.permissions, BaseNames() + IspNames()) else WithNames(db.permissions, BaseNames())
  {
    SeedRbacPermissions(db, c);
    if isp {
      IspPermissions(SeedRbac(db, c), c);
      WithNamesTwice(db.permissions, BaseNames(), IspNames());
    }
  }

  lemma WithNamesAt(permissions: map<Name, Action>, names: set<Name>, n: Name)
    ensures n in WithNames(permissions, names) <==> n in permissions || n in names
    ensures n in permissions ==> WithNames(permissions, names)[n] == permissions[n]
    ensures n in names && n !in permissions && n.Of? ==> WithNames(permissions, names)[n] == n.action
  {
  }

  /** Permissions after a run: stored actions stay, and each seeded name that was missing is there with its own action. */
  lemma PermissionsOfRun(db: Rbac, isp: bool, c: Choices, n: Name)
    ensures n in Run(db, isp, c).permissions <==> n in db.permissions || n in BaseNames() || (isp && n in IspNames())
    ensures n in Run(db, isp, c).permissions && n !in db.permissions ==> n.Of? && Run(db, isp, c).permissions[n] == n.action
    ensures n in db.permissions ==> Run(db, isp, c).permissions[n] == db.permissions[n]
  {
    SeededNamesAreKnown(n);
    RunPermissions(db, isp, c);
    WithNamesAt(db.permissions, BaseNames(), n);
    WithNamesAt(db.permissions, BaseNames() + IspNames(), n);
  }

  /** What a role is entitled to: ADMIN to all, VIEWER to what its filter admits, a chosen ISP row to its list. */
  ghost predicate IsEntitled(roles: map<Id, Role>, permissions: map<Name, Action>, isp: bool, c: Choices, g: Grant) {
    || IsGlobal(roles, g.role, ADMIN)
    || (IsGlobal(roles, g.role, VIEWER) && g.permission in permissions && ViewerSees(g.permission, permissions[g.permission]))
    || (isp && exists name :: IsIspRole(name) && g.role == ChosenFor(c, name) && g.permission in GrantsOf(name))
  }

  /** Every grant stood before, is an entitlement, or follows from one of these by a ledger rule. */
  ghost predicate IsAccounted(before: set<Grant>, roles: map<Id, Role>, permissions: map<Name, Action>, isp: bool, c: Choices, g: Grant) {
    || IsStanding(before, roles, permissions, isp, c, g)
    || exists source :: Derives(source, g.permission) && IsStanding(before, roles, permissions, isp, c, Grant(g.role, source))
  }

  ghost predicate IsStanding(before: set<Grant>, roles: map<Id, Role>, permissions: map<Name, Action>, isp: bool, c: Choices, g: Grant) {
    g in before || IsEntitled(roles, permissions, isp, c, g)
  }

  ghost predicate AllAccounted(before: set<Grant>, after: Rbac, isp: bool, c: Choices, grants: set<Grant>) {
    forall g | g in grants :: IsAccounted(before, after.roles, after.permissions, isp, c, g)
  }

  ghost predicate RowsWithin(a: map<Id, Role>, b: map<Id, Role>) {
    forall r | r in a :: r in b && b[r] == a[r]
  }

  /** The ledger rules lead from orders to payments, and never further. */
  lemma DerivedIsAccounted(before: set<Grant>, after: Rbac, isp: bool, c: Choices, g: Grant, source: Name)
    requires Derives(source, g.permission) && IsAccounted(before, after.roles, after.permissions, isp, c, Grant(g.role, source))
    ensures IsAccounted(before, after.roles, after.permissions, isp, c, g)
  {
    assert forall other :: !Derives(other, source);
  }

  lemma ReconciledIsAccounted(before: set<Grant>, db: Rbac, after: Rbac, isp: bool, c: Choices, g: Grant)
    requires RowsWithin(db.roles, after.roles) && Includes(Reconcile(db).permissions, after.permissions)
    requires AllAccounted(before, after, isp, c, db.grants) && g in Reconcile(db).grants
    ensures IsAccounted(before, after.roles, after.permissions, isp, c, g)
  {
    var mid := Granted(db);
    ReconcileExtends(db);
    CopyAllIff(mid, g);
    if g in mid.grants {
      GrantedIsEntitled(db, after, isp, c, g);
    } else {
      var source :| Derives(source, g.permission) && Grant(g.role, source) in mid.grants;
      GrantedIsEntitled(db, after, isp, c, Grant(g.role, source));
      DerivedIsAccounted(before, after, isp, c, g, source);
    }
  }

  lemma GrantedIsEntitled(db: Rbac, after: Rbac, isp: bool, c: Choices, g: Grant)
    requires RowsWithin(db.roles, after.roles) && Includes(WithNames(db.permissions, BaseNames()), after.permissions)
    requires g in Granted(db).grants
    ensures g in db.grants || IsEntitled(after.roles, after.permissions, isp, c, g)
  {
  }

  lemma IspGrantIsEntitled(db: Rbac, after: Rbac, c: Choices, g: Grant)
    requires RowsWithin(db.roles, after.roles) && g in SeedIspRoles(SeedIspPermissions(db), c).grants
    ensures g in db.grants || IsEntitled(after.roles, after.permissions, true, c, g)
  {
    assert IsIspRole(TECHNICIAN) && IsIspRole(COLLECTOR) && IsIspRole(CAPTIVE_PORTAL);
    assert ChosenFor(c, TECHNICIAN) == c.technician && ChosenFor(c, COLLECTOR) == c.collector && ChosenFor(c, CAPTIVE_PORTAL) == c.portal;
  }

  lemma SeedRbacIsAccounted(db: Rbac, after: Rbac, isp: bool, c: Choices)
    requires c.admin != c.viewer
    requires RowsWithin(SeedRbac(db, c).roles, after.roles) && Includes(SeedRbac(db, c).permissions, after.permissions)
    ensures AllAccounted(db.grants, after, isp, c, SeedRbac(db, c).grants)
  {
    var start := if db.roles == map[] then Fresh(db, c) else db;
    ReconcileExtends(start);
    FreshIsAccounted(db, after, isp, c);
    forall g | g in SeedRbac(db, c).grants ensures IsAccounted(db.grants, after.roles, after.permissions, isp, c, g) {
      ReconciledIsAccounted(db.grants, start, after, isp, c, g);
    }
  }

  lemma FreshIsAccounted(db: Rbac, after: Rbac, isp: bool, c: Choices)
    ensures RowsWithin(Fresh(db, c).roles, after.roles) && c.admin != c.viewer ==> AllAccounted(db.grants, after, isp, c, Fresh(db, c).grants)
    ensures AllAccounted(db.grants, after, isp, c, db.grants)
  {
  }

  /** A run gives nothing away beyond the entitlements and what the ledger rules derive from them. */
  lemma RunGrantsOnly(db: Rbac, isp: bool, c: Choices, g: Grant)
    requires ChoicesOk(db.roles, c) && g in Run(db, isp, c).grants
    ensures IsAccounted(db.grants, Run(db, isp, c).roles, Run(db, isp, c).permissions, isp, c, g)
  {
    var after := Run(db, isp, c);
    RunExtends(db, isp, c);
    SeedRbacIsAccounted(db, after, isp, c);
    if isp {
      IspRunIsAccounted(db, SeedRbac(db, c), after, c, g);
    }
  }

  lemma IspRunIsAccounted(db: Rbac, base: Rbac, after: Rbac, c: Choices, g: Grant)
    requires after == Reconcile(SeedIspRoles(SeedIspPermissions(base), c)) && RowsWithin(base.roles, after.roles)
    requires AllAccounted(db.grants, after, true, c, base.grants) && g in after.grants
    ensures IsAccounted(db.grants, after.roles, after.permissions, true, c, g)
  {
    var seeded := SeedIspRoles(SeedIspPermissions(base), c);
    ReconcileExtends(seeded);
    forall h | h in seeded.grants ensures IsAccounted(db.grants, after.roles, after.permissions, true, c, h) {
      IspGrantIsEntitled(base, after, c, h);
    }
    ReconciledIsAccounted(db.grants, seeded, after, true, c, g);
  }

  /* ---------- When a second run is idle ---------- */

  function ChosenFor(c: Choices, name: RoleName): Id
    requires IsIspRole(name)
  {
    match name
    case TECHNICIAN => c.technician
    case COLLECTOR => c.collector
    case _ => c.portal
  }

  /** The grant is there, or reconciliation derives it from an order grant. */
  ghost predicate HoldsOrDerives(db: Rbac, r: Id, n: Name) {
    Grant(r, n) in db.grants || exists source :: Derives(source, n) && Grant(r, source) in db.grants
  }

  ghost predicate IsEquipped(db: Rbac, name: RoleName, r: Id) {
    forall n | n in GrantsOf(name) :: HoldsOrDerives(db, r, n)
  }

  /** The role row is unambiguous, or it does not matter which one is fetched. */
  ghost predicate IsRepeatable(db: Rbac, name: RoleName) {
    AtMostOne(db.roles, name) || forall r | IsGlobal(db.roles, r, name) :: IsEquipped(db, name, r)
  }

  ghost predicate Repeatable(db: Rbac) {
    IsRepeatable(db, TECHNICIAN) && IsRepeatable(db, COLLECTOR) && IsRepeatable(db, CAPTIVE_PORTAL)
  }

  /** Whichever rows two runs fetch, the second changes nothing. */
  ghost predicate SecondRunIsIdle(db: Rbac, isp: bool) {
    forall c, d | ChoicesOk(db.roles, c) && ChoicesOk(Run(db, isp, c).roles, d) ::
      Run(Run(db, isp, c), isp, d) == Run(db, isp, c)
  }

  lemma GrantsAreSeeded(name: RoleName)
    ensures GrantsOf(name) <= BaseNames() + IspNames()
  {
  }

  /** The ISP rows after seeding the roles: those of before, and a new one where there was none. */
  lemma SeededIspRows(db: Rbac, c: Choices, name: RoleName, r: Id)
    requires FetchedOrNew(db.roles, TECHNICIAN, c.technician) && FetchedOrNew(db.roles, COLLECTOR, c.collector)
    requires FetchedOrNew(db.roles, CAPTIVE_PORTAL, c.portal)
    requires c.technician != c.collector && c.technician != c.portal && c.collector != c.portal
    requires IsIspRole(name)
    ensures IsGlobal(SeedIspRoles(db, c).roles, r, name) ==> IsGlobal(db.roles, r, name) || r == ChosenFor(c, name)
    ensures db.permissions == SeedIspRoles(db, c).permissions && Below(db, SeedIspRoles(db, c))
  {
    var one := SeedRole(db, TECHNICIAN, c.technician);
    OtherRoleKept(db, TECHNICIAN, c.technician, COLLECTOR);
    OtherRoleKept(db, TECHNICIAN, c.technician, CAPTIVE_PORTAL);
    OtherRoleKept(one, COLLECTOR, c.collector, CAPTIVE_PORTAL);
  }

  lemma IspRowsOfRun(db: Rbac, c: Choices, name: RoleName, r: Id)
    requires ChoicesOk(db.roles, c) && IsIspRole(name)
    ensures IsGlobal(Run(db, true, c).roles, r, name) ==> IsGlobal(db.roles, r, name) || r == ChosenFor(c, name)
    ensures db.grants <= Run(db, true, c).grants
  {
    SeedRbacRoles(db, c);
    StartKeepsIspRows(db.roles, c, name);
    FetchedStays(db, c);
    var base := SeedIspPermissions(SeedRbac(db, c));
    SeededIspRows(base, c, name, r);
    ReconcileExtends(SeedIspRoles(base, c));
    ReconcileExtends(if db.roles == map[] then Fresh(db, c) else db);
  }

  lemma EquippedHolds(db: Rbac, after: Rbac, name: RoleName, r: Id)
    requires IsEquipped(db, name, r) && db.grants <= after.grants && Closed(after)
    ensures RoleGrants(after, name, r) <= after.grants
  {
    forall n | n in GrantsOf(name) && n in after.permissions ensures Grant(r, n) in after.grants {
      if source :| Derives(source, n) && Grant(r, source) in db.grants {
        assert source in BaseNames();
        assert Grant(Grant(r, source).role, n) in after.grants;
      }
    }
  }

  lemma ChosenIsInAfter(db: Rbac, c: Choices, name: RoleName)
    requires ChoicesOk(db.roles, c) && IsIspRole(name)
    ensures FetchedOrNew(db.roles, name, ChosenFor(c, name)) && RowHolds(Run(db, true, c), name, ChosenFor(c, name))
    ensures Closed(Run(db, true, c)) && Run(db, true, c).roles != map[] && IspNames() <= Run(db, true, c).permissions.Keys
  {
    ChosenRowHolds(db, c);
    ChosenAmong(Run(db, true, c), c, name);
  }

  lemma ChosenAmong(after: Rbac, c: Choices, name: RoleName)
    requires IsIspRole(name)
    requires RowHolds(after, TECHNICIAN, c.technician) && RowHolds(after, COLLECTOR, c.collector)
    requires RowHolds(after, CAPTIVE_PORTAL, c.portal)
    ensures RowHolds(after, name, ChosenFor(c, name))
  {
  }

  lemma RepeatableSettles(db: Rbac, c: Choices, name: RoleName)
    requires ChoicesOk(db.roles, c) && IsIspRole(name) && IsRepeatable(db, name)
    ensures RoleSettled(Run(db, true, c), name)
  {
    var after, chosen := Run(db, true, c), ChosenFor(c, name);
    ChosenIsInAfter(db, c, name);
    assert chosen in after.roles && IsGlobal(after.roles, chosen, name);
    forall r | IsGlobal(after.roles, r, name) ensures RoleGrants(after, name, r) <= after.grants {
      IspRowsOfRun(db, c, name, r);
      if r != chosen {
        assert r in db.roles && IsGlobal(db.roles, r, name);
        EquippedHolds(db, after, name, r);
      }
    }
  }

  /** One run settles the database, unless it leaves a doubled role unequipped. */
  lemma RunSettles(db: Rbac, isp: bool, c: Choices)
    requires ChoicesOk(db.roles, c) && (isp ==> Repeatable(db))
    ensures Settled(Run(db, isp, c), isp)
  {
    SeedRbacCloses(db, c);
    if isp {
      ChosenIsInAfter(db, c, TECHNICIAN);
      RepeatableSettles(db, c, TECHNICIAN);
      RepeatableSettles(db, c, COLLECTOR);
      RepeatableSettles(db, c, CAPTIVE_PORTAL);
    }
  }

  /** Reconciliation gives a role other than ADMIN and VIEWER only what it derives. */
  lemma ReconcileDerives(db: Rbac, r: Id, n: Name)
    requires !IsGlobal(db.roles, r, ADMIN) && !IsGlobal(db.roles, r, VIEWER)
    ensures Grant(r, n) in Reconcile(db).grants ==> HoldsOrDerives(db, r, n)
  {
    var mid := Granted(db);
    assert forall m | Grant(r, m) in mid.grants :: Grant(r, m) in db.grants;
    CopyAllIff(mid, Grant(r, n));
  }

  lemma SeedsElsewhere(db: Rbac, c: Choices, r: Id, n: Name)
    requires r !in {c.technician, c.collector, c.portal} && !IsGlobal(db.roles, r, ADMIN)
    ensures Grant(r, n) in SeedIspRoles(SeedIspPermissions(db), c).grants ==> Grant(r, n) in db.grants
    ensures forall name :: IsGlobal(SeedIspRoles(SeedIspPermissions(db), c).roles, r, name) <==> IsGlobal(db.roles, r, name)
  {
  }

  /** A row that a run neither fetches nor inserts, and that is not ADMIN or VIEWER, gains only what it derives. */
  lemma UnfetchedRowDerives(db: Rbac, c: Choices, r: Id, n: Name)
    requires ChoicesOk(db.roles, c) && r in db.roles && r !in {c.technician, c.collector, c.portal}
    requires !IsGlobal(db.roles, r, ADMIN) && !IsGlobal(db.roles, r, VIEWER)
    ensures Grant(r, n) in Run(db, true, c).grants ==> HoldsOrDerives(db, r, n)
  {
    var base := SeedRbac(db, c);
    var seeded := SeedIspRoles(SeedIspPermissions(base), c);
    assert db.roles != map[] && base == Reconcile(db);
    ReconcileExtends(db);
    forall m | Grant(r, m) in seeded.grants ensures HoldsOrDerives(db, r, m) {
      SeedsElsewhere(base, c, r, m);
      ReconcileDerives(db, r, m);
    }
    if Grant(r, n) in Run(db, true, c).grants {
      SeedsElsewhere(base, c, r, n);
      ReconcileDerives(seeded, r, n);
      DerivesOnce(db, seeded, r, n);
    }
  }

  /** What is derived from derived grants is derived. */
  lemma DerivesOnce(db: Rbac, after: Rbac, r: Id, n: Name)
    requires HoldsOrDerives(after, r, n) && forall m | Grant(r, m) in after.grants :: HoldsOrDerives(db, r, m)
    ensures HoldsOrDerives(db, r, n)
  {
    if Grant(r, n) !in after.grants {
      var source :| Derives(source, n) && Grant(r, source) in after.grants;
      assert HoldsOrDerives(db, r, source);
    }
  }

  /** A run may fetch any global row of an ISP role. */
  lemma FetchRow(roles: map<Id, Role>, name: RoleName, r: Id) returns (c: Choices)
    requires IsIspRole(name) && IsGlobal(roles, r, name)
    ensures ChoicesOk(roles, c) && ChosenFor(c, name) == r
  {
    match name
    case TECHNICIAN => c := ChoicesExist(roles, Some(r), None, None);
    case COLLECTOR => c := ChoicesExist(roles, None, Some(r), None);
    case _ => c := ChoicesExist(roles, None, None, Some(r));
  }

  /** Fetching one row and then another of the same name leaves a trace. */
  lemma SecondFetchShows(db: Rbac, name: RoleName, q: Id, r: Id, n: Name)
    requires IsIspRole(name) && IsGlobal(db.roles, q, name) && IsGlobal(db.roles, r, name) && q != r
    requires n in GrantsOf(name) && !HoldsOrDerives(db, r, n)
    ensures !SecondRunIsIdle(db, true)
  {
    var c := FetchRow(db.roles, name, q);
    var once := Run(db, true, c);
    IspRowsKept(db, c, name, r);
    var d := FetchRow(once.roles, name, r);
    ChosenIsInAfter(once, d, name);
    GrantsAreSeeded(name);
    assert n in Run(once, true, d).permissions;
    assert Grant(r, n) in RoleGrants(Run(once, true, d), name, r);
    OtherRowsNotChosen(db.roles, c, name, r);
    UnfetchedRowDerives(db, c, r, n);
  }

  lemma IspRowsKept(db: Rbac, c: Choices, name: RoleName, r: Id)
    requires ChoicesOk(db.roles, c) && IsGlobal(db.roles, r, name)
    ensures IsGlobal(Run(db, true, c).roles, r, name)
  {
    var base := SeedIspPermissions(SeedRbac(db, c));
    FetchedStays(db, c);
    ReconcileExtends(if db.roles == map[] then Fresh(db, c) else db);
    SeededIspRows(base, c, TECHNICIAN, r);
    ReconcileExtends(SeedIspRoles(base, c));
  }

  lemma OtherRowsNotChosen(roles: map<Id, Role>, c: Choices, name: RoleName, r: Id)
    requires ChoicesOk(roles, c) && IsIspRole(name) && IsGlobal(roles, r, name) && r != ChosenFor(c, name)
    ensures r !in {c.technician, c.collector, c.portal}
  {
  }

  /** No run changes the database, whichever rows it fetches. */
  ghost predicate EveryRunIsIdle(db: Rbac, isp: bool) {
    forall c | ChoicesOk(db.roles, c) :: Run(db, isp, c) == db
  }

  lemma IdleRoleIsSettled(db: Rbac, name: RoleName)
    requires EveryRunIsIdle(db, true) && IsIspRole(name)
    ensures RoleSettled(db, name) && Closed(db) && db.roles != map[] && IspNames() <= db.permissions.Keys
  {
    var c := ChoicesExist(db.roles, None, None, None);
    ChosenIsInAfter(db, c, name);
    var chosen := ChosenFor(c, name);
    assert chosen in db.roles && IsGlobal(db.roles, chosen, name);
    forall r | IsGlobal(db.roles, r, name) ensures RoleGrants(db, name, r) <= db.grants {
      var d := FetchRow(db.roles, name, r);
      ChosenIsInAfter(db, d, name);
    }
  }

  /** A run adds nothing, whichever rows it fetches, exactly when the database is settled. */
  lemma FixedIffSettled(db: Rbac, isp: bool)
    ensures EveryRunIsIdle(db, isp) <==> Settled(db, isp)
  {
    if Settled(db, isp) {
      forall c | ChoicesOk(db.roles, c) ensures Run(db, isp, c) == db {
        SettledIsFixed(db, isp, c);
      }
    } else if EveryRunIsIdle(db, isp) {
      IdleIsSettled(db, isp);
    }
  }

  lemma IdleIsSettled(db: Rbac, isp: bool)
    requires EveryRunIsIdle(db, isp)
    ensures Settled(db, isp)
  {
    if isp {
      IdleRoleIsSettled(db, TECHNICIAN);
      IdleRoleIsSettled(db, COLLECTOR);
      IdleRoleIsSettled(db, CAPTIVE_PORTAL);
    } else {
      var c := ChoicesExist(db.roles, None, None, None);
      SeedRbacCloses(db, c);
      assert Run(db, false, c) == db;
    }
  }

  /** A second run is idle exactly when no doubled role name has a row that lacks one of its grants. */
  lemma RunTwiceIff(db: Rbac, isp: bool)
    ensures SecondRunIsIdle(db, isp) <==> (isp ==> Repeatable(db))
  {
    if isp ==> Repeatable(db) {
      forall c, d | ChoicesOk(db.roles, c) && ChoicesOk(Run(db, isp, c).roles, d)
        ensures Run(Run(db, isp, c), isp, d) == Run(db, isp, c)
      {
        RunSettles(db, isp, c);
        SettledIsFixed(Run(db, isp, c), isp, d);
      }
    } else {
      UnrepeatableShows(db, TECHNICIAN);
      UnrepeatableShows(db, COLLECTOR);
      UnrepeatableShows(db, CAPTIVE_PORTAL);
    }
  }

  lemma UnrepeatableShows(db: Rbac, name: RoleName)
    requires IsIspRole(name)
    ensures !IsRepeatable(db, name) ==> !SecondRunIsIdle(db, true)
  {
    if !AtMostOne(db.roles, name) && exists r :: IsGlobal(db.roles, r, name) && !IsEquipped(db, name, r) {
      var a, b :| IsGlobal(db.roles, a, name) && IsGlobal(db.roles, b, name) && a != b;
      var r :| IsGlobal(db.roles, r, name) && !IsEquipped(db, name, r);
      var n :| n in GrantsOf(name) && !HoldsOrDerives(db, r, n);
      SecondFetchShows(db, name, if a != r then a else b, r, n);
    }
  }

  /** Two global rows of one built-in name, and nothing else: two runs that fetch different rows. */
  lemma SecondRunCanDiffer()
    ensures var db := Rbac(map[], map[1 := Role(TECHNICIAN, None), 2 := Role(TECHNICIAN, None)], {});
            exists c, d :: ChoicesOk(db.roles, c) && ChoicesOk(Run(db, true, c).roles, d) &&
                           Run(Run(db, true, c), true, d) != Run(db, true, c)
  {
    var db := Rbac(map[], map[1 := Role(TECHNICIAN, None), 2 := Role(TECHNICIAN, None)], {});
    assert IsGlobal(db.roles, 1, TECHNICIAN) && IsGlobal(db.roles, 2, TECHNICIAN);
    assert Of(TASKS, CREATE) in GrantsOf(TECHNICIAN);
    SecondFetchShows(db, TECHNICIAN, 1, 2, Of(TASKS, CREATE));
  }

  /* ---------- What is never handed out ---------- */

  /** Held back from every role but ADMIN. */
  predicate HeldBack(n: Name) {
    n == Of(DEVICE_CREDENTIALS, READ) || n == Of(CLIENT_SERVICES, ADOPT)
  }

  /** The row of `n` does not pose as a read permission. */
  predicate NotARead(db: Rbac, n: Name) {
    n == Of(DEVICE_CREDENTIALS, READ) || (n in db.permissions ==> db.permissions[n] != READ)
  }

  /** Every global VIEWER has been given `n` already. */
  ghost predicate ViewersHold(db: Rbac, n: Name) {
    db.roles != map[] && forall r | IsGlobal(db.roles, r, VIEWER) :: Grant(r, n) in db.grants
  }

  ghost predicate StaysBack(db: Rbac, n: Name) {
    NotARead(db, n) || ViewersHold(db, n)
  }

  /** New grants of `n` are to global ADMIN roles, and roles stay. */
  ghost predicate OnlyAdminGains(a: Rbac, b: Rbac, n: Name) {
    && (forall r, name | IsGlobal(a.roles, r, name) :: IsGlobal(b.roles, r, name))
    && a.grants <= b.grants
    && forall g | g in b.grants && g !in a.grants && g.permission == n :: IsGlobal(b.roles, g.role, ADMIN)
  }

  /** A pass that gives `n` to ADMIN roles only, and prepares nothing else. */
  ghost predicate HoldsBack(a: Rbac, b: Rbac, n: Name) {
    OnlyAdminGains(a, b, n) && StaysBack(b, n)
  }

  lemma GainsChain(a: Rbac, b: Rbac, c: Rbac, n: Name)
    requires HoldsBack(a, b, n) && HoldsBack(b, c, n)
    ensures HoldsBack(a, c, n)
  {
  }

  lemma ReconcileHoldsBack(db: Rbac, n: Name)
    requires HeldBack(n) && StaysBack(db, n)
    ensures HoldsBack(db, Reconcile(db), n)
  {
    var mid := Granted(db);
    ReconcileExtends(db);
    forall g | g in Reconcile(db).grants && g !in db.grants && g.permission == n ensures IsGlobal(db.roles, g.role, ADMIN) {
      CopyAllIff(mid, g);
      GrantedHoldsBack(db, g);
    }
  }

  lemma GrantedHoldsBack(db: Rbac, g: Grant)
    requires HeldBack(g.permission) && StaysBack(db, g.permission) && g in Granted(db).grants && g !in db.grants
    ensures IsGlobal(db.roles, g.role, ADMIN)
  {
  }

  lemma SeedRoleHoldsBack(db: Rbac, name: RoleName, r: Id, n: Name)
    requires HeldBack(n) && name in IspRoles() && FetchedOrNew(db.roles, name, r) && StaysBack(db, n)
    ensures HoldsBack(db, SeedRole(db, name, r), n)
  {
    assert n !in GrantsOf(name);
    OtherRoleKept(db, name, r, VIEWER);
  }

  lemma SeedIspRolesHoldsBack(db: Rbac, c: Choices, n: Name)
    requires HeldBack(n) && StaysBack(db, n)
    requires FetchedOrNew(db.roles, TECHNICIAN, c.technician) && FetchedOrNew(db.roles, COLLECTOR, c.collector)
    requires FetchedOrNew(db.roles, CAPTIVE_PORTAL, c.portal)
    requires c.technician != c.collector && c.technician != c.portal && c.collector != c.portal
    ensures HoldsBack(db, SeedIspRoles(db, c), n)
  {
    var one := SeedRole(db, TECHNICIAN, c.technician);
    var two := SeedRole(one, COLLECTOR, c.collector);
    OtherRoleKept(db, TECHNICIAN, c.technician, COLLECTOR);
    OtherRoleKept(db, TECHNICIAN, c.technician, CAPTIVE_PORTAL);
    OtherRoleKept(one, COLLECTOR, c.collector, CAPTIVE_PORTAL);
    SeedRoleHoldsBack(db, TECHNICIAN, c.technician, n);
    SeedRoleHoldsBack(one, COLLECTOR, c.collector, n);
    SeedRoleHoldsBack(two, CAPTIVE_PORTAL, c.portal, n);
    GainsChain(db, one, two, n);
    GainsChain(db, two, SeedIspRoles(db, c), n);
  }

  lemma SeedRbacHoldsBack(db: Rbac, c: Choices, n: Name)
    requires ChoicesOk(db.roles, c) && HeldBack(n) && StaysBack(db, n)
    ensures HoldsBack(db, SeedRbac(db, c), n)
  {
    var start := if db.roles == map[] then Fresh(db, c) else db;
    assert HoldsBack(db, start, n);
    ReconcileHoldsBack(start, n);
    GainsChain(db, start, SeedRbac(db, c), n);
  }

  lemma SeedIspHoldsBack(db: Rbac, c: Choices, n: Name)
    requires HeldBack(n) && StaysBack(db, n)
    requires FetchedOrNew(db.roles, TECHNICIAN, c.technician) && FetchedOrNew(db.roles, COLLECTOR, c.collector)
    requires FetchedOrNew(db.roles, CAPTIVE_PORTAL, c.portal)
    requires c.technician != c.collector && c.technician != c.portal && c.collector != c.portal
    ensures HoldsBack(db, Reconcile(SeedIspRoles(SeedIspPermissions(db), c)), n)
  {
    var named := SeedIspPermissions(db);
    assert HoldsBack(db, named, n);
    SeedIspRolesHoldsBack(named, c, n);
    ReconcileHoldsBack(SeedIspRoles(named, c), n);
    GainsChain(db, named, SeedIspRoles(named, c), n);
    GainsChain(db, SeedIspRoles(named, c), Reconcile(SeedIspRoles(named, c)), n);
  }

  lemma RunHoldsBack(db: Rbac, isp: bool, c: Choices, n: Name)
    requires ChoicesOk(db.roles, c) && HeldBack(n) && StaysBack(db, n)
    ensures HoldsBack(db, Run(db, isp, c), n)
  {
    SeedRbacHoldsBack(db, c, n);
    if isp {
      FetchedStays(db, c);
      SeedIspHoldsBack(SeedRbac(db, c), c, n);
      GainsChain(db, SeedRbac(db, c), Run(db, isp, c), n);
    }
  }

  /** A run keeps rows, grants and stored actions. */
  lemma RunExtends(db: Rbac, isp: bool, c: Choices)
    requires ChoicesOk(db.roles, c)
    ensures Below(db, Run(db, isp, c)) && Below(SeedRbac(db, c), Run(db, isp, c)) && Closed(Run(db, isp, c))
  {
    SeedRbacCloses(db, c);
    SeedRbacExtends(db, c);
    if isp {
      FetchedStays(db, c);
      SeedIspExtends(SeedRbac(db, c), c);
      BelowChain(db, SeedRbac(db, c), Run(db, isp, c));
    }
  }

  lemma SeedRbacExtends(db: Rbac, c: Choices)
    requires c.admin !in db.roles && c.viewer !in db.roles
    ensures Below(db, SeedRbac(db, c))
  {
    var start := if db.roles == map[] then Fresh(db, c) else db;
    ReconcileExtends(start);
    assert Below(db, start);
    BelowChain(db, start, SeedRbac(db, c));
  }

  lemma SeedIspExtends(db: Rbac, c: Choices)
    requires FetchedOrNew(db.roles, TECHNICIAN, c.technician) && FetchedOrNew(db.roles, COLLECTOR, c.collector)
    requires FetchedOrNew(db.roles, CAPTIVE_PORTAL, c.portal)
    requires c.technician != c.collector && c.technician != c.portal && c.collector != c.portal
    ensures var after := Reconcile(SeedIspRoles(SeedIspPermissions(db), c)); Below(db, after) && Closed(after)
  {
    var base := SeedIspPermissions(db);
    var seeded := SeedIspRoles(base, c);
    SeededIspRows(base, c, TECHNICIAN, 0);
    ReconcileExtends(seeded);
    ReconcileCloses(seeded);
    assert Below(db, base);
    BelowChain(db, base, seeded);
    BelowChain(db, seeded, Reconcile(seeded));
  }

  /** Without roles there are no grants, as their foreign key demands. */
  ghost predicate GrantsHaveRoles(db: Rbac) {
    db.roles == map[] ==> db.grants == {}
  }

  /** `r` is a VIEWER that `n` is granted to in `b` and was not in `a`. */
  ghost predicate ViewerGains(a: Rbac, b: Rbac, r: Id, n: Name) {
    IsGlobal(b.roles, r, VIEWER) && Grant(r, n) in b.grants && Grant(r, n) !in a.grants
  }

  /** A stored row that poses as a read permission is given anew to every VIEWER that lacks it, a new one included. */
  lemma PosingReadIsGranted(db: Rbac, isp: bool, c: Choices, n: Name)
    requires ChoicesOk(db.roles, c) && HeldBack(n) && !StaysBack(db, n) && GrantsHaveRoles(db)
    ensures exists r :: ViewerGains(db, Run(db, isp, c), r, n)
  {
    var after := Run(db, isp, c);
    RunExtends(db, isp, c);
    assert n in after.permissions && after.permissions[n] == READ;
    if db.roles == map[] {
      ReconcileExtends(Fresh(db, c));
      assert IsGlobal(SeedRbac(db, c).roles, c.viewer, VIEWER);
      assert ViewerGains(db, after, c.viewer, n);
    } else {
      var r :| IsGlobal(db.roles, r, VIEWER) && Grant(r, n) !in db.grants;
      assert ViewerGains(db, after, r, n);
    }
  }

  /**
   One run gives a held-back permission to global ADMIN roles only, exactly unless its row poses as a read
   permission and a VIEWER still lacks it or is yet to be created.
   */
  lemma RunHoldsBackIff(db: Rbac, isp: bool, c: Choices, n: Name)
    requires ChoicesOk(db.roles, c) && HeldBack(n) && GrantsHaveRoles(db)
    ensures OnlyAdminGains(db, Run(db, isp, c), n) <==> StaysBack(db, n)
  {
    if StaysBack(db, n) {
      RunHoldsBack(db, isp, c, n);
    } else {
      PosingReadIsGranted(db, isp, c, n);
      var r :| ViewerGains(db, Run(db, isp, c), r, n);
    }
  }

  /** Each state follows from the one before by a run. */
  ghost predicate AreRuns(states: seq<Rbac>) {
    forall i | 0 < i < |states| :: StepFollows(states, i)
  }

  ghost predicate StepFollows(states: seq<Rbac>, i: nat)
    requires 0 < i < |states|
  {
    FollowsByRun(states[i - 1], states[i])
  }

  ghost predicate FollowsByRun(a: Rbac, b: Rbac) {
    exists isp, c :: ChoicesOk(a.roles, c) && b == Run(a, isp, c)
  }

  lemma FollowerExtends(a: Rbac, b: Rbac)
    requires FollowsByRun(a, b)
    ensures Below(a, b)
  {
    var isp, c :| ChoicesOk(a.roles, c) && b == Run(a, isp, c);
    RunExtends(a, isp, c);
  }

  lemma FollowerHoldsBack(a: Rbac, b: Rbac, n: Name)
    requires FollowsByRun(a, b) && HeldBack(n) && StaysBack(a, n)
    ensures HoldsBack(a, b, n)
  {
    var isp, c :| ChoicesOk(a.roles, c) && b == Run(a, isp, c);
    RunHoldsBack(a, isp, c, n);
  }

  /** Every step keeps all rows, and holds `n` back if the state before does. */
  ghost predicate StepsKeep(states: seq<Rbac>, n: Name) {
    forall i | 0 < i < |states| :: StepKeeps(states, i, n)
  }

  ghost predicate StepKeeps(states: seq<Rbac>, i: nat, n: Name)
    requires 0 < i < |states|
  {
    Below(states[i - 1], states[i]) && (StaysBack(states[i - 1], n) ==> HoldsBack(states[i - 1], states[i], n))
  }

  lemma RunsKeep(states: seq<Rbac>, n: Name)
    requires AreRuns(states) && HeldBack(n)
    ensures StepsKeep(states, n)
  {
    forall i | 0 < i < |states| ensures StepKeeps(states, i, n) {
      assert StepFollows(states, i);
      FollowerExtends(states[i - 1], states[i]);
      if StaysBack(states[i - 1], n) {
        FollowerHoldsBack(states[i - 1], states[i], n);
      }
    }
  }

  lemma {:induction false} StepsHoldBack(states: seq<Rbac>, k: nat, n: Name)
    requires k < |states| && StepsKeep(states, n) && StaysBack(states[0], n)
    ensures HoldsBack(states[0], states[k], n)
  {
    if k > 0 {
      StepsHoldBack(states, k - 1, n);
      assert StepKeeps(states, k, n);
      GainsChain(states[0], states[k - 1], states[k], n);
    }
  }

  lemma {:induction false} StepsExtend(states: seq<Rbac>, i: nat, k: nat, n: Name)
    requires StepsKeep(states, n) && i <= k < |states|
    ensures Below(states[i], states[k])
    decreases k
  {
    if i < k {
      StepsExtend(states, i, k - 1, n);
      assert StepKeeps(states, k, n);
      BelowChain(states[i], states[k - 1], states[k]);
    }
  }

  lemma BelowChain(a: Rbac, b: Rbac, c: Rbac)
    requires Below(a, b) && Below(b, c)
    ensures Below(a, c)
  {
  }

  lemma FollowerGrantsViewer(a: Rbac, b: Rbac, n: Name) returns (r: Id)
    requires FollowsByRun(a, b) && HeldBack(n) && !StaysBack(a, n) && GrantsHaveRoles(a)
    ensures ViewerGains(a, b, r, n)
  {
    var isp, c :| ChoicesOk(a.roles, c) && b == Run(a, isp, c);
    PosingReadIsGranted(a, isp, c, n);
    r :| ViewerGains(a, b, r, n);
  }

  /** The same over any number of runs: neither VIEWER nor any role but a global ADMIN is given a held-back permission. */
  lemma RunsHoldBackIff(states: seq<Rbac>, n: Name)
    requires |states| > 1 && AreRuns(states) && HeldBack(n) && GrantsHaveRoles(states[0])
    ensures OnlyAdminGains(states[0], states[|states| - 1], n) <==> StaysBack(states[0], n)
  {
    RunsKeep(states, n);
    if StaysBack(states[0], n) {
      StepsHoldBack(states, |states| - 1, n);
    } else {
      assert StepFollows(states, 1);
      var r := FollowerGrantsViewer(states[0], states[1], n);
      StepsExtend(states, 1, |states| - 1, n);
      assert ViewerGains(states[0], states[|states| - 1], r, n);
    }
  }

  /* ---------- The passes as they run ---------- */

  lemma WithOneMore(permissions: map<Name, Action>, done: set<Name>, n: Name)
    ensures var one := WithNames(permissions, done);
            WithNames(permissions, done + {n}) == if n in one then one else one[n := ActionOf(n)]
  {
  }

  class RbacTables {
    var permissions: map<Name, Action>
    var roles: map<Id, Role>
    var grants: set<Grant>

    function State(): Rbac
      reads this
    {
      Rbac(permissions, roles, grants)
    }

    constructor (db: Rbac)
      ensures State() == db
    {
      permissions, roles, grants := db.permissions, db.roles, db.grants;
    }

    /** One INSERT for each permission; a name that exists is left as it is. */
    method InsertPermissions(names: set<Name>)
      modifies `permissions
      ensures permissions == WithNames(old(permissions), names)
    {
      var left := names;
      ghost var done := {};
      assert WithNames(permissions, {}) == permissions;
      while left != {}
        invariant Splits(names, left, done) && permissions == WithNames(old(permissions), done)
        decreases |left|
      {
        var n :| n in left;
        WithOneMore(old(permissions), done, n);
        if n !in permissions {
          permissions := permissions[n := ActionOf(n)];
        }
        OneLess(names, left, done, n);
        left, done := left - {n}, done + {n};
      }
      assert done == names;
    }

    /** The grant-copy loop of the reconciliation. */
    method CopyGrants()
      modifies `grants
      ensures State() == CopyAll(old(State()))
    {
      var pairs := [(Of(ORDERS, UPDATE), Of(PAYMENTS, RECORD)), (Of(ORDERS, READ), Of(PAYMENTS, READ)),
                    (Of(ORDERS, REVERT_PAYMENT), Of(PAYMENTS, REFUND))];
      for i := 0 to |pairs|
        invariant i == 0 ==> State() == old(State())
        invariant i == 1 ==> State() == Copy(old(State()), pairs[0].0, pairs[0].1)
        invariant i == 2 ==> State() == Copy(Copy(old(State()), pairs[0].0, pairs[0].1), pairs[1].0, pairs[1].1)
        invariant i == 3 ==> State() == CopyAll(old(State()))
      {
        grants := grants + Copied(State(), pairs[i].0, pairs[i].1);
      }
    }

    /** _ensure_convergent_rbac */
    method EnsureConvergent()
      modifies `permissions, `grants
      ensures State() == Reconcile(old(State()))
    {
      InsertPermissions(BaseNames());
      grants := grants + AdminGrants(roles, permissions.Keys);
      grants := grants + ViewerGrants(State());
      assert State() == Granted(old(State()));
      CopyGrants();
    }

    /** seed_rbac_data: a database without roles gets ADMIN and VIEWER first. */
    method SeedRbacData(c: Choices)
      modifies this
      ensures State() == SeedRbac(old(State()), c)
    {
      if roles == map[] {
        InsertPermissions(BaseNames());
        roles := roles[c.admin := Role(ADMIN, None)];
        roles := roles[c.viewer := Role(VIEWER, None)];
        grants := grants + set n | n in permissions :: Grant(c.admin, n);
      }
      EnsureConvergent();
    }

    /** One turn of the loop over the ISP roles. */
    method SeedOneRole(name: RoleName, r: Id)
      modifies `roles, `grants
      ensures State() == SeedRole(old(State()), name, r)
    {
      if !Exists(roles, name) {
        roles := roles[r := Role(name, None)];
      }
      grants := grants + RoleGrants(State(), name, r);
      assert RoleGrants(State(), name, r) == RoleGrants(old(State()), name, r);
    }

    /** seed_isp_data, as far as roles and permissions go. */
    method SeedIspData(c: Choices)
      modifies this
      ensures State() == SeedIspRoles(SeedIspPermissions(old(State())), c)
    {
      InsertPermissions(IspNames());
      grants := grants + AdminGrants(roles, IspNames());
      SeedOneRole(TECHNICIAN, c.technician);
      SeedOneRole(COLLECTOR, c.collector);
      SeedOneRole(CAPTIVE_PORTAL, c.portal);
    }

    /** _run_seeds: the passes in their order, ending with a second reconciliation. */
    method RunSeeds(isp: bool, c: Choices)
      requires ChoicesOk(roles, c)
      modifies this
      ensures State() == Run(old(State()), isp, c)
      ensures (isp ==> Repeatable(old(State()))) ==> Settled(State(), isp)
    {
      ghost var db := State();
      SeedRbacData(c);
      if isp {
        SeedIspData(c);
        EnsureConvergent();
      }
      if isp ==> Repeatable(db) {
        RunSettles(db, isp, c);
      }
    }
  }
}
