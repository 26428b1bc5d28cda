/**
 Folding recurring orders into client services, and back
 (alembic/versions/c2b_service_billing_client_service_absorbs_recurring_order.py and the migrate
 step of alembic/versions/ld1_legacy_drop.py).
 */
module SubscriptionBridge {
  import opened Common

  datatype Status = ACTIVE | PAUSED | INACTIVE | CANCELLED

  datatype Recurring = Recurring(created: int, client: Option<Id>, company: Id,
                                 recurrence: Id, end: Option<int>, next: Option<int>, last: Option<int>, status: Status)
  datatype TemplateItem = TemplateItem(recurring: Id, product: Id, quantity: int)
  datatype Plan = Plan(product: Option<Id>)

  /** `billing` None means that this row bills nothing. */
  datatype Service = Service(created: int, client: Id, company: Id, plan: Id, active: bool, activation: Option<int>,
                             cancelledAt: Option<int>, recurring: Option<Id>,
                             recurrence: Option<Id>, end: Option<int>, next: Option<int>, last: Option<int>,
                             billing: Option<Status>, quantity: int, source: Option<string>)

  /** `isRecurring` says that the order type is RECURRING. */
  datatype Order = Order(recurring: Option<Id>, service: Option<Id>, due: Option<int>, cancelled: bool, isRecurring: bool)

  datatype Db = Db(recurring: map<Id, Recurring>, items: map<Id, TemplateItem>, plans: map<Id, Plan>,
                   services: map<Id, Service>, orders: map<Id, Order>)

  /* ---------- Who bills a recurring order ---------- */

  predicate Bridges(db: Db, i: Id, r: Id) {
    i in db.services && db.services[i].recurring == Some(r)
  }

  predicate Bills(db: Db, i: Id, r: Id) {
    Bridges(db, i, r) && db.services[i].billing.Some?
  }

  ghost predicate AtMostOneBills(db: Db) {
    forall i, j, r | Bills(db, i, r) && Bills(db, j, r) :: i == j
  }

  ghost predicate ExactlyOneBills(db: Db, r: Id) {
    exists i :: Bills(db, i, r) && forall j | Bills(db, j, r) :: j == i
  }

  predicate IsBridged(db: Db, r: Id) {
    exists i :: i in db.services && db.services[i].recurring == Some(r)
  }

  /** uq_service_plan_product */
  ghost predicate PlansUnique(db: Db) {
    forall p, q | p in db.plans && q in db.plans && db.plans[p].product.Some? && db.plans[p].product == db.plans[q].product :: p == q
  }

  /** `k` is the one template item of `r`. */
  predicate IsOnlyItem(db: Db, r: Id, k: Id) {
    k in db.items && db.items[k].recurring == r && forall j :: j in db.items && db.items[j].recurring == r ==> j == k
  }

  predicate IsPlanFor(db: Db, p: Id, product: Id) {
    p in db.plans && db.plans[p].product == Some(product)
  }

  /** A template of one item whose product has plan `p`. */
  predicate HasSingleItem(db: Db, r: Id, k: Id, p: Id) {
    IsOnlyItem(db, r, k) && IsPlanFor(db, p, db.items[k].product)
  }

  predicate IsBridgeable(db: Db, r: Id) {
    && r in db.recurring && db.recurring[r].client.Some?
    && exists k, p :: k in db.items && p in db.plans && HasSingleItem(db, r, k, p)
  }

  /* ---------- Pass 1 ---------- */

  predicate Older(db: Db, i: Id, j: Id)
    requires i in db.services && j in db.services
  {
    db.services[i].created < db.services[j].created || (db.services[i].created == db.services[j].created && i <= j)
  }

  /** The first service of its recurring order by (created_at, id), and none of the others bills. */
  predicate Picked(db: Db, i: Id)
    requires i in db.services
  {
    var r := db.services[i].recurring;
    && r.Some? && r.value in db.recurring
    && (forall j :: j in db.services && db.services[j].recurring == r ==> Older(db, i, j))
    && (forall j :: j in db.services && db.services[j].recurring == r ==> db.services[j].billing.None?)
  }

  /** `k` holds the largest quantity of its recurring order. */
  predicate HasTopQuantity(items: map<Id, TemplateItem>, k: Id)
    requires k in items
  {
    forall j :: j in items && items[j].recurring == items[k].recurring ==> items[j].quantity <= items[k].quantity
  }

  /** MAX(quantity) for each recurring order that has items. */
  function TopQuantities(items: map<Id, TemplateItem>): map<Id, int> {
    map k | k in items && HasTopQuantity(items, k) :: items[k].recurring := items[k].quantity
  }

  function Absorb(s: Service, r: Recurring, quantity: int): Service {
    s.(recurrence := Some(r.recurrence), end := r.end, next := r.next, last := r.last, billing := Some(r.status), quantity := quantity)
  }

  function QuantityOf(db: Db, r: Id): int {
    if r in TopQuantities(db.items) then TopQuantities(db.items)[r] else 1
  }

  function Pass1(db: Db): Db {
    db.(services := map i | i in db.services ::
          if Picked(db, i) then
            Absorb(db.services[i], db.recurring[db.services[i].recurring.value], QuantityOf(db, db.services[i].recurring.value))
          else db.services[i])
  }

  /** Among the services of one recurring order, there is a first. */
  lemma FirstService(db: Db, i: Id, r: Id) returns (first: Id)
    requires Bridges(db, i, r)
    ensures Bridges(db, first, r) && forall j | Bridges(db, j, r) :: Older(db, first, j)
    decreases set j | j in db.services && !Older(db, i, j)
  {
    if forall j | Bridges(db, j, r) :: Older(db, i, j) {
      return i;
    }
    var j :| Bridges(db, j, r) && !Older(db, i, j);
    var before, beforeJ := set k | k in db.services && !Older(db, i, k), set k | k in db.services && !Older(db, j, k);
    assert j in before && j !in beforeJ && beforeJ <= before;
    first := FirstService(db, j, r);
  }

  /** What Pass 1 does to one service. */
  lemma Pass1Row(db: Db, i: Id, r: Id)
    ensures Bridges(Pass1(db), i, r) <==> Bridges(db, i, r)
    ensures Bills(Pass1(db), i, r) <==> Bills(db, i, r) || (Bridges(db, i, r) && Picked(db, i))
  {
  }

  lemma PickedAlone(db: Db, i: Id, j: Id, r: Id)
    requires Bridges(db, i, r) && Picked(db, i) && Bridges(db, j, r) && (Bills(db, j, r) || Picked(db, j))
    ensures i == j
  {
  }

  /** Pass 1 never lets a second service bill a recurring order. */
  lemma Pass1Keeps(db: Db)
    requires AtMostOneBills(db)
    ensures AtMostOneBills(Pass1(db))
  {
    var after := Pass1(db);
    forall i, j, r | Bills(after, i, r) && Bills(after, j, r) ensures i == j {
      Pass1Row(db, i, r);
      Pass1Row(db, j, r);
      if Picked(db, i) {
        PickedAlone(db, i, j, r);
      } else if Picked(db, j) {
        PickedAlone(db, j, i, r);
      }
    }
  }

  /** After Pass 1 every bridged recurring order is billed. */
  lemma Pass1BillsBridged(db: Db, i: Id, r: Id) returns (biller: Id)
    requires r in db.recurring && Bridges(db, i, r)
    ensures Bills(Pass1(db), biller, r)
  {
    biller := FirstService(db, i, r);
    if j :| j in db.services && Bills(db, j, r) {
      biller := j;
    } else {
      forall j | j in db.services && db.services[j].recurring == Some(r) ensures db.services[j].billing.None? {
        assert !Bills(db, j, r);
      }
      forall j | j in db.services && db.services[j].recurring == Some(r) ensures Older(db, biller, j) {
        assert Bridges(db, j, r);
      }
    }
    Pass1Row(db, biller, r);
  }

  /* ---------- Pass 2, and the migrate step of ld1 ---------- */

  /** The row inserted for `r`, with its item `k` and plan `p`. */
  function NewService(db: Db, r: Id, k: Id, p: Id, source: string): Service
    requires r in db.recurring && db.recurring[r].client.Some? && k in db.items
  {
    var ro := db.recurring[r];
    Service(ro.created, ro.client.value, ro.company, p,
            ro.status != CANCELLED,
            if ro.status != CANCELLED then Some(ro.created) else None,
            if ro.status != CANCELLED then None
            else Some(if ro.end.Some? then ro.end.value else if ro.last.Some? then ro.last.value else ro.created),
            Some(r), Some(ro.recurrence), ro.end, ro.next, ro.last, Some(ro.status), db.items[k].quantity, Some(source))
  }

  /** `s` is the row inserted for recurring order `r`. */
  ghost predicate IsRowFor(db: Db, s: Service, r: Id, source: string) {
    && IsBridgeable(db, r)
    && s.recurring == Some(r) && s.billing.Some?
    && exists k, p :: HasSingleItem(db, r, k, p) && s == NewService(db, r, k, p, source)
  }

  /** `after` has, besides the old rows, row `made[r]` for each recurring order r of `made`, and no other. */
  ghost predicate Inserted(db: Db, made: map<Id, Id>, source: string, after: Db) {
    && after == db.(services := after.services)
    && after.services.Keys == db.services.Keys + Range(made)
    && (forall i | i in db.services :: after.services[i] == db.services[i])
    && (forall r | r in made :: made[r] !in db.services && IsRowFor(db, after.services[made[r]], r, source))
  }

  /** Bridgeable recurring orders that no service points at. */
  function Targets(db: Db): set<Id> {
    set r | r in db.recurring && IsBridgeable(db, r) && !IsBridged(db, r)
  }

  /** A row of recurring_order JOIN recurring_order_item JOIN service_plan. */
  datatype JoinRow = JoinRow(order: Id, item: Id, plan: Id)

  function JoinRows(db: Db, orders: set<Id>): set<JoinRow> {
    set r, k, p | r in orders && k in db.items && p in db.plans && db.items[k].recurring == r &&
                  IsPlanFor(db, p, db.items[k].product) :: JoinRow(r, k, p)
  }

  predicate CanInsert(db: Db, j: JoinRow) {
    j.order in db.recurring && db.recurring[j.order].client.Some? && j.item in db.items
  }

  function KeysOf(keys: map<JoinRow, Id>): set<Id> {
    set j | j in keys :: keys[j]
  }

  predicate AllInsertable(db: Db, rows: set<JoinRow>) {
    forall j | j in rows :: CanInsert(db, j)
  }

  /** INSERT ... SELECT: a new service for every joined row, under `keys`. */
  ghost predicate SelectInserted(db: Db, keys: map<JoinRow, Id>, source: string, after: Db) {
    after == db.(services := after.services) && RowsInserted(db, keys, source, after.services)
  }

  ghost predicate RowsInserted(db: Db, keys: map<JoinRow, Id>, source: string, services: map<Id, Service>) {
    && services.Keys == db.services.Keys + KeysOf(keys)
    && (forall i | i in db.services :: services[i] == db.services[i])
    && (forall j, k | j in keys && k in keys && keys[j] == keys[k] :: j == k)
    && (forall j | j in keys ::
          && keys[j] !in db.services && CanInsert(db, j)
          && services[keys[j]] == NewService(db, j.order, j.item, j.plan, source))
  }

  /** The WHERE clause of Pass 2: a client, no service yet, exactly one item. */
  function Pass2Orders(db: Db): set<Id> {
    set r | r in db.recurring && db.recurring[r].client.Some? && !IsBridged(db, r) &&
            exists k :: k in db.items && IsOnlyItem(db, r, k)
  }

  ghost predicate Pass2(db: Db, after: Db) {
    exists keys: map<JoinRow, Id> :: keys.Keys == JoinRows(db, Pass2Orders(db)) && SelectInserted(db, keys, "c2b", after)
  }

  /** The join drops the recurring orders whose product has no plan. */
  lemma Pass2JoinsTargets(db: Db)
    ensures JoinRows(db, Pass2Orders(db)) == JoinRows(db, Targets(db))
  {
    forall j ensures j in JoinRows(db, Pass2Orders(db)) <==> j in JoinRows(db, Targets(db)) {
      if j in JoinRows(db, Pass2Orders(db)) {
        var k :| k in db.items && IsOnlyItem(db, j.order, k);
        assert HasSingleItem(db, j.order, k, j.plan);
      }
      if j in JoinRows(db, Targets(db)) {
        var k, p :| k in db.items && p in db.plans && HasSingleItem(db, j.order, k, p);
      }
    }
  }

  ghost function RowOfOrder(db: Db, r: Id): (j: JoinRow)
    requires IsBridgeable(db, r)
    ensures j.order == r && j.item in db.items && j.plan in db.plans && HasSingleItem(db, r, j.item, j.plan)
  {
    var k, p :| k in db.items && p in db.plans && HasSingleItem(db, r, k, p);
    JoinRow(r, k, p)
  }

  /** `rows` holds one joined row for each of `orders`. */
  ghost predicate OneRowEach(db: Db, orders: set<Id>, rows: set<JoinRow>) {
    && (forall r | r in orders :: IsBridgeable(db, r))
    && (forall r | r in orders :: RowOfOrder(db, r) in rows)
    && (forall j | j in rows :: j.order in orders && j == RowOfOrder(db, j.order))
  }

  /** With one plan for a product and one item for an order, the join has one row for each order. */
  lemma JoinIsPerOrder(db: Db, orders: set<Id>)
    requires PlansUnique(db) && forall r | r in orders :: IsBridgeable(db, r)
    ensures OneRowEach(db, orders, JoinRows(db, orders))
  {
  }

  /** So the statement inserts one service for each order. */
  lemma InsertedPerOrder(db: Db, orders: set<Id>, keys: map<JoinRow, Id>, source: string, after: Db) returns (made: map<Id, Id>)
    requires OneRowEach(db, orders, keys.Keys) && SelectInserted(db, keys, source, after)
    ensures made.Keys == orders && Inserted(db, made, source, after)
  {
    made := map r | r in orders :: keys[RowOfOrder(db, r)];
    RangePerOrder(db, orders, keys, made);
    RowsPerOrder(db, orders, keys, source, after);
  }

  lemma RowsPerOrder(db: Db, orders: set<Id>, keys: map<JoinRow, Id>, source: string, after: Db)
    requires OneRowEach(db, orders, keys.Keys) && SelectInserted(db, keys, source, after)
    ensures forall r | r in orders ::
              var i := keys[RowOfOrder(db, r)]; i in after.services && i !in db.services && IsRowFor(db, after.services[i], r, source)
  {
    forall r | r in orders
      ensures var i := keys[RowOfOrder(db, r)]; i in after.services && i !in db.services && IsRowFor(db, after.services[i], r, source)
    {
      RowPerOrder(db, keys, source, after, r);
    }
  }

  lemma RangePerOrder(db: Db, orders: set<Id>, keys: map<JoinRow, Id>, made: map<Id, Id>)
    requires OneRowEach(db, orders, keys.Keys)
    requires made.Keys == orders && forall r | r in orders :: made[r] == keys[RowOfOrder(db, r)]
    ensures Range(made) == KeysOf(keys)
  {
    forall j | j in keys ensures keys[j] in Range(made) {
      assert made[j.order] == keys[j];
    }
  }

  lemma RowPerOrder(db: Db, keys: map<JoinRow, Id>, source: string, after: Db, r: Id)
    requires IsBridgeable(db, r) && RowOfOrder(db, r) in keys && SelectInserted(db, keys, source, after)
    ensures var i := keys[RowOfOrder(db, r)]; i in after.services && i !in db.services && IsRowFor(db, after.services[i], r, source)
  {
    var j := RowOfOrder(db, r);
    assert HasSingleItem(db, r, j.item, j.plan);
  }

  lemma Pass2PerOrder(db: Db, after: Db) returns (made: map<Id, Id>)
    requires PlansUnique(db) && Pass2(db, after)
    ensures made.Keys == Targets(db) && Inserted(db, made, "c2b", after)
  {
    Pass2JoinsTargets(db);
    JoinIsPerOrder(db, Targets(db));
    var keys: map<JoinRow, Id> :| keys.Keys == JoinRows(db, Pass2Orders(db)) && SelectInserted(db, keys, "c2b", after);
    made := InsertedPerOrder(db, Targets(db), keys, "c2b", after);
  }

  /** Without the unique index, two plans for a product make Pass 2 bill an order twice. */
  lemma TwoPlansBillTwice(db: Db, after: Db, r: Id, k: Id, p: Id, q: Id)
    requires Pass2(db, after) && r in Pass2Orders(db) && IsOnlyItem(db, r, k)
    requires p != q && IsPlanFor(db, p, db.items[k].product) && IsPlanFor(db, q, db.items[k].product)
    ensures !AtMostOneBills(after)
  {
    var keys: map<JoinRow, Id> :| keys.Keys == JoinRows(db, Pass2Orders(db)) && SelectInserted(db, keys, "c2b", after);
    var one, two := JoinRow(r, k, p), JoinRow(r, k, q);
    IsJoined(db, one, Pass2Orders(db));
    IsJoined(db, two, Pass2Orders(db));
    TwoRowsBillTwice(db, keys, after, one, two);
  }

  lemma IsJoined(db: Db, j: JoinRow, orders: set<Id>)
    requires j.order in orders && j.item in db.items && db.items[j.item].recurring == j.order
    requires IsPlanFor(db, j.plan, db.items[j.item].product)
    ensures j in JoinRows(db, orders)
  {
  }

  lemma TwoRowsBillTwice(db: Db, keys: map<JoinRow, Id>, after: Db, one: JoinRow, two: JoinRow)
    requires SelectInserted(db, keys, "c2b", after) && one in keys && two in keys && one != two && one.order == two.order
    ensures !AtMostOneBills(after)
  {
    JoinedRowBills(db, keys, "c2b", after, one);
    JoinedRowBills(db, keys, "c2b", after, two);
  }

  lemma JoinedRowBills(db: Db, keys: map<JoinRow, Id>, source: string, after: Db, j: JoinRow)
    requires SelectInserted(db, keys, source, after) && j in keys
    ensures Bills(after, keys[j], j.order)
  {
  }

  /** Every inserted row bills the order that it bridges. */
  lemma SelectedRowBills(db: Db, keys: map<JoinRow, Id>, source: string, after: Db, i: Id, r: Id)
    requires SelectInserted(db, keys, source, after) && i !in db.services && Bridges(after, i, r)
    ensures Bills(after, i, r)
  {
    var j :| j in keys && keys[j] == i;
  }

  lemma SelectKeepsBiller(db: Db, keys: map<JoinRow, Id>, source: string, after: Db, i: Id, r: Id)
    requires SelectInserted(db, keys, source, after) && Bills(db, i, r)
    ensures Bills(after, i, r)
  {
  }

  lemma InsertedRow(db: Db, made: map<Id, Id>, source: string, after: Db, i: Id, r: Id)
    requires Inserted(db, made, source, after) && Bridges(after, i, r)
    ensures i in db.services ==> Bridges(db, i, r) && (Bills(after, i, r) <==> Bills(db, i, r))
    ensures i !in db.services ==> r in made && i == made[r] && IsBridgeable(db, r)
  {
    if i !in db.services {
      var q :| q in made && made[q] == i;
      assert IsRowFor(db, after.services[made[q]], q, source);
    }
  }

  lemma InsertedKeepsOld(db: Db, made: map<Id, Id>, source: string, after: Db, i: Id, r: Id)
    requires Inserted(db, made, source, after) && Bills(db, i, r)
    ensures Bills(after, i, r)
  {
  }

  lemma BilledOnce(db: Db, i: Id, r: Id)
    requires AtMostOneBills(db) && Bills(db, i, r)
    ensures ExactlyOneBills(db, r)
  {
  }

  /** Inserting for recurring orders that nothing bills leaves each billed at most once, and those once. */
  lemma InsertedBills(db: Db, made: map<Id, Id>, source: string, after: Db)
    requires Inserted(db, made, source, after) && AtMostOneBills(db)
    requires forall r, i | r in made :: !Bills(db, i, r)
    ensures AtMostOneBills(after)
    ensures forall r | r in made :: ExactlyOneBills(after, r)
  {
    forall i, j, r | Bills(after, i, r) && Bills(after, j, r) ensures i == j {
      InsertedRow(db, made, source, after, i, r);
      InsertedRow(db, made, source, after, j, r);
    }
    forall r | r in made ensures ExactlyOneBills(after, r) {
      assert IsRowFor(db, after.services[made[r]], r, source);
      BilledOnce(after, made[r], r);
    }
  }

  lemma NothingInserted(db: Db, keys: map<JoinRow, Id>, source: string, after: Db)
    requires SelectInserted(db, keys, source, after) && keys.Keys == {}
    ensures after == db
  {
    assert after.services.Keys == db.services.Keys;
    forall i | i in after.services ensures after.services[i] == db.services[i] {
    }
    assert after.services == db.services;
  }

  /* ---------- What the conditions of the passes mean ---------- */

  function ItemsOf(db: Db, r: Id): set<Id> {
    set k | k in db.items && db.items[k].recurring == r
  }

  lemma OnlyItemIff(db: Db, r: Id, k: Id)
    ensures IsOnlyItem(db, r, k) <==> ItemsOf(db, r) == {k}
  {
    if IsOnlyItem(db, r, k) {
      forall j ensures j in ItemsOf(db, r) <==> j in {k} {
      }
    }
    if ItemsOf(db, r) == {k} {
      assert k in ItemsOf(db, r);
      forall j | j in db.items && db.items[j].recurring == r ensures j == k {
        assert j in ItemsOf(db, r);
      }
    }
  }

  /** Pass 2 selects a client's recurring order with one item that no service points at. */
  lemma Pass2OrdersIff(db: Db, r: Id)
    ensures r in Pass2Orders(db) <==>
            && r in db.recurring && db.recurring[r].client.Some?
            && (forall i | i in db.services :: db.services[i].recurring != Some(r))
            && exists k :: ItemsOf(db, r) == {k}
  {
    forall k ensures IsOnlyItem(db, r, k) <==> ItemsOf(db, r) == {k} {
      OnlyItemIff(db, r, k);
    }
    if k :| ItemsOf(db, r) == {k} {
      assert k in ItemsOf(db, r);
    }
  }

  /** A recurring order can be bridged when it has a client, one item, and a plan for that item's product. */
  lemma BridgeableIff(db: Db, r: Id)
    ensures IsBridgeable(db, r) <==>
            && r in db.recurring && db.recurring[r].client.Some?
            && exists k, p :: ItemsOf(db, r) == {k} && IsPlanOfItem(db, p, k)
  {
    forall k ensures IsOnlyItem(db, r, k) <==> ItemsOf(db, r) == {k} {
      OnlyItemIff(db, r, k);
    }
    if IsBridgeable(db, r) {
      var k, p :| k in db.items && p in db.plans && HasSingleItem(db, r, k, p);
      assert ItemsOf(db, r) == {k} && IsPlanOfItem(db, p, k);
    }
    if k, p :| ItemsOf(db, r) == {k} && IsPlanOfItem(db, p, k) {
      assert HasSingleItem(db, r, k, p);
    }
  }

  predicate IsPlanOfItem(db: Db, p: Id, k: Id) {
    k in db.items && p in db.plans && db.plans[p].product == Some(db.items[k].product)
  }

  /** The migrate step selects the ACTIVE recurring orders that no service bills, and aborts on those that cannot be bridged. */
  lemma StuckIff(db: Db, r: Id)
    ensures r in Unbridged(db) <==>
            && r in db.recurring && db.recurring[r].status == ACTIVE
            && forall i | i in db.services && db.services[i].recurring == Some(r) :: db.services[i].billing == None
    ensures r in Stuck(db) <==> r in Unbridged(db) && !IsBridgeable(db, r)
  {
    if r in Unbridged(db) {
      MigratableIsBridgeable(db, r);
    }
  }

  /* ---------- What Pass 1 picks and writes ---------- */

  /** Service `i` is the oldest of those that point at `r`, and none of them bills. */
  ghost predicate IsOldestUnbilled(db: Db, i: Id, r: Id) {
    && Bridges(db, i, r)
    && (forall j | Bridges(db, j, r) :: db.services[j].billing.None?)
    && (forall j | Bridges(db, j, r) && j != i :: Later(db.services[j].created, j, db.services[i].created, i))
  }

  /** `q` is the largest quantity of the template of `r`, or one without a template. */
  ghost predicate IsTopQuantity(db: Db, r: Id, q: int) {
    if exists k :: k in db.items && db.items[k].recurring == r then
      && (exists k :: k in db.items && db.items[k].recurring == r && db.items[k].quantity == q)
      && (forall k | k in db.items && db.items[k].recurring == r :: db.items[k].quantity <= q)
    else q == 1
  }

  lemma {:induction false} SomeTopQuantity(db: Db, r: Id, ids: set<Id>)
    requires ids != {} && forall k | k in ids :: k in db.items && db.items[k].recurring == r
    ensures exists k :: k in ids && forall j | j in ids :: db.items[j].quantity <= db.items[k].quantity
  {
    NonEmpty(ids);
    var k :| k in ids;
    if ids - {k} != {} {
      SomeTopQuantity(db, r, ids - {k});
      var top :| top in ids - {k} && forall j | j in ids - {k} :: db.items[j].quantity <= db.items[top].quantity;
      var best := if db.items[top].quantity <= db.items[k].quantity then k else top;
      assert forall j | j in ids :: j == k || j in ids - {k};
      assert best in ids;
    } else {
      assert forall j | j in ids :: j == k || j in ids - {k};
    }
  }

  lemma QuantityIsTop(db: Db, r: Id)
    ensures IsTopQuantity(db, r, QuantityOf(db, r))
  {
    var ids := set k | k in db.items && db.items[k].recurring == r;
    if k :| k in db.items && db.items[k].recurring == r {
      assert k in ids;
      SomeTopQuantity(db, r, ids);
      var top :| top in ids && forall j | j in ids :: db.items[j].quantity <= db.items[top].quantity;
      assert forall j | j in db.items && db.items[j].recurring == r :: j in ids;
      assert HasTopQuantity(db.items, top);
      assert r in TopQuantities(db.items);
    }
    if r in TopQuantities(db.items) {
      var k :| k in db.items && HasTopQuantity(db.items, k) && db.items[k].recurring == r && TopQuantities(db.items)[r] == db.items[k].quantity;
    }
  }

  /** A service changes exactly when it is the oldest of a recurring order that nothing bills, and then it takes over its columns. */
  lemma Pass1Writes(db: Db, i: Id, r: Id)
    requires Bridges(db, i, r)
    ensures i in Pass1(db).services
    ensures var s, t := db.services[i], Pass1(db).services[i];
            if r in db.recurring && IsOldestUnbilled(db, i, r) then
              var ro := db.recurring[r];
              && t.recurrence == Some(ro.recurrence) && t.end == ro.end && t.next == ro.next && t.last == ro.last
              && t.billing == Some(ro.status) && IsTopQuantity(db, r, t.quantity)
              && s == t.(recurrence := s.recurrence, end := s.end, next := s.next, last := s.last, billing := s.billing, quantity := s.quantity)
            else t == s
  {
    QuantityIsTop(db, r);
    PickedIff(db, i, r);
  }

  lemma PickedIff(db: Db, i: Id, r: Id)
    requires Bridges(db, i, r)
    ensures Picked(db, i) <==> r in db.recurring && IsOldestUnbilled(db, i, r)
  {
    assert forall j :: Bridges(db, j, r) <==> j in db.services && db.services[j].recurring == Some(r);
  }

  /** Pass 1 leaves every service that points at no recurring order. */
  lemma Pass1LeavesUnbridged(db: Db, i: Id)
    requires i in db.services && db.services[i].recurring.None?
    ensures i in Pass1(db).services && Pass1(db).services[i] == db.services[i]
  {
  }

  /* ---------- What an inserted row says ---------- */

  /** Service row `s` states, column by column, what recurring order `r` of `db` bills. */
  ghost predicate Mirrors(db: Db, s: Service, r: Id) {
    && r in db.recurring && s.recurring == Some(r)
    && var ro := db.recurring[r];
       && ro.client == Some(s.client) && s.company == ro.company && s.created == ro.created
       && s.recurrence == Some(ro.recurrence) && s.end == ro.end
       && s.next == ro.next && s.last == ro.last && s.billing == Some(ro.status)
       && s.active == (ro.status != CANCELLED)
       && s.activation == (if ro.status == CANCELLED then None else Some(ro.created))
       && (ro.status != CANCELLED ==> s.cancelledAt.None?)
       && (ro.status == CANCELLED ==> s.cancelledAt == Some(FirstOf(ro.end, ro.last, ro.created)))
  }

  /** COALESCE of two dates and a last resort. */
  function FirstOf(a: Option<int>, b: Option<int>, c: int): int {
    match a
    case Some(x) => x
    case None => (match b case Some(y) => y case None => c)
  }

  /** The plan and quantity are those of an item of the recurring order. */
  ghost predicate SellsAnItem(db: Db, s: Service, r: Id) {
    exists k :: k in db.items && db.items[k].recurring == r && IsPlanFor(db, s.plan, db.items[k].product) && s.quantity == db.items[k].quantity
  }

  /** Every row that the statement inserts over joined rows mirrors its recurring order. */
  lemma InsertedRowMirrors(db: Db, orders: set<Id>, keys: map<JoinRow, Id>, source: string, after: Db, i: Id) returns (r: Id)
    requires keys.Keys == JoinRows(db, orders) && SelectInserted(db, keys, source, after)
    requires i in after.services && i !in db.services
    ensures r in orders && Mirrors(db, after.services[i], r) && SellsAnItem(db, after.services[i], r)
    ensures after.services[i].source == Some(source)
    ensures var s, ro := after.services[i], db.recurring[r];
            s.recurrence.Some? && s.billing.Some? && RowOf(s, ro.created) == ro
  {
    assert i in KeysOf(keys);
    var j :| j in keys && keys[j] == i;
    r := j.order;
    assert j in JoinRows(db, orders) && IsPlanFor(db, j.plan, db.items[j.item].product);
  }

  /** Pass 1 changes no recurring order, item or plan, and no service row appears in it. */
  lemma UpgradedRowMirrors(db: Db, after: Db, i: Id) returns (r: Id)
    requires Upgraded(db, after) && i in after.services && i !in db.services
    ensures Mirrors(db, after.services[i], r) && SellsAnItem(db, after.services[i], r) && after.services[i].source == Some("c2b")
    ensures !IsBridged(db, r)
  {
    var one := Pass1(db);
    var mid :| Pass2(one, mid) && after == Pass3(mid);
    var keys: map<JoinRow, Id> :| keys.Keys == JoinRows(one, Pass2Orders(one)) && SelectInserted(one, keys, "c2b", mid);
    r := InsertedRowMirrors(one, Pass2Orders(one), keys, "c2b", mid, i);
    Pass1KeepsBridges(db, r);
    SameMirror(db, one, after.services[i], r);
  }

  lemma Pass1KeepsBridges(db: Db, r: Id)
    ensures IsBridged(db, r) ==> IsBridged(Pass1(db), r)
  {
    if j :| j in db.services && db.services[j].recurring == Some(r) {
      Pass1Row(db, j, r);
      assert Bridges(Pass1(db), j, r);
    }
  }

  lemma SameMirror(db: Db, one: Db, s: Service, r: Id)
    requires one.recurring == db.recurring && one.items == db.items && one.plans == db.plans
    requires Mirrors(one, s, r) && SellsAnItem(one, s, r)
    ensures Mirrors(db, s, r) && SellsAnItem(db, s, r)
  {
    var k :| k in one.items && one.items[k].recurring == r && IsPlanFor(one, s.plan, one.items[k].product) && s.quantity == one.items[k].quantity;
  }

  /** The same for the migrate step, whose rows are all ACTIVE. */
  lemma MigratedRowMirrors(db: Db, after: Db, i: Id) returns (r: Id)
    requires Migrated(db, Ok(after)) && i in after.services && i !in db.services
    ensures Mirrors(db, after.services[i], r) && SellsAnItem(db, after.services[i], r) && after.services[i].source == Some("ld1")
    ensures after.services[i].active && r in Unbridged(db)
  {
    var mid :| InsertedForUnbridged(db, mid) && Ok(after) == if Unbridged(mid) != {} then Err(UnbridgedRemain) else Ok(Pass3(mid));
    var keys: map<JoinRow, Id> :| keys.Keys == JoinRows(db, Unbridged(db)) && SelectInserted(db, keys, "ld1", mid);
    r := InsertedRowMirrors(db, Unbridged(db), keys, "ld1", mid, i);
  }

  /* ---------- Pass 3 ---------- */

  predicate IsSoleService(db: Db, i: Id)
    requires i in db.services
  {
    db.services[i].recurring.Some? && forall j :: j in db.services && db.services[j].recurring == db.services[i].recurring ==> j == i
  }

  function SoleServices(db: Db): map<Id, Id> {
    map i | i in db.services && IsSoleService(db, i) :: db.services[i].recurring.value := i
  }

  predicate Linkable(db: Db, o: Order) {
    o.service.None? && o.recurring.Some? && o.recurring.value in SoleServices(db)
  }

  function Pass3(db: Db): Db {
    db.(orders := map i | i in db.orders ::
          if Linkable(db, db.orders[i]) then db.orders[i].(service := Some(SoleServices(db)[db.orders[i].recurring.value]))
          else db.orders[i])
  }

  /** An order without service gets one exactly when its recurring order has a single service, and that one. */
  lemma Pass3Writes(db: Db, o: Id)
    requires o in db.orders
    ensures o in Pass3(db).orders
    ensures var p, q := db.orders[o], Pass3(db).orders[o];
            && p == q.(service := p.service)
            && (p.service.Some? || p.recurring.None? ==> q.service == p.service)
            && (p.service.None? && p.recurring.Some? ==>
                  forall i :: q.service == Some(i) <==>
                    Bridges(db, i, p.recurring.value) && forall j | Bridges(db, j, p.recurring.value) :: j == i)
  {
    var p := db.orders[o];
    if p.recurring.Some? {
      var r := p.recurring.value;
      forall i ensures (r in SoleServices(db) && SoleServices(db)[r] == i) <==> Bridges(db, i, r) && forall j | Bridges(db, j, r) :: j == i {
        SoleServiceIff(db, r, i);
      }
    }
  }

  lemma SoleServiceIff(db: Db, r: Id, i: Id)
    ensures (r in SoleServices(db) && SoleServices(db)[r] == i) <==> Bridges(db, i, r) && forall j | Bridges(db, j, r) :: j == i
  {
    if Bridges(db, i, r) && forall j | Bridges(db, j, r) :: j == i {
      assert forall j | j in db.services && db.services[j].recurring == Some(r) :: Bridges(db, j, r);
      assert IsSoleService(db, i);
    }
  }

  /* ---------- The three passes together ---------- */

  ghost predicate Upgraded(db: Db, after: Db) {
    exists mid :: Pass2(Pass1(db), mid) && after == Pass3(mid)
  }

  /** Each recurring order is billed at most once, and once if it is bridged or can be. */
  lemma UpgradeBillsOnce(db: Db, after: Db)
    requires PlansUnique(db) && AtMostOneBills(db) && Upgraded(db, after)
    ensures AtMostOneBills(after)
    ensures forall r | r in db.recurring && (IsBridged(db, r) || IsBridgeable(db, r)) :: ExactlyOneBills(after, r)
    ensures after.recurring == db.recurring && after.items == db.items && after.plans == db.plans
  {
    var one := Pass1(db);
    var mid :| Pass2(one, mid) && after == Pass3(mid);
    var made := Pass2PerOrder(one, mid);
    Pass1Keeps(db);
    forall r, i | r in made ensures !Bills(one, i, r) {
      assert r in Targets(one);
    }
    InsertedBills(one, made, "c2b", mid);
    assert forall i, r :: Bills(after, i, r) <==> Bills(mid, i, r);
    forall r | r in db.recurring && (IsBridged(db, r) || IsBridgeable(db, r)) ensures ExactlyOneBills(after, r) {
      if i :| i in db.services && db.services[i].recurring == Some(r) {
        var biller := Pass1BillsBridged(db, i, r);
        InsertedKeepsOld(one, made, "c2b", mid, biller, r);
        BilledOnce(after, biller, r);
      } else {
        SameBridgeable(db, one, r);
        NotBridgedAfterPass1(db, r);
        assert r in Targets(one) && r in made;
        var i :| Bills(mid, i, r);
        BilledOnce(after, i, r);
      }
    }
  }

  lemma NotBridgedAfterPass1(db: Db, r: Id)
    requires !IsBridged(db, r)
    ensures !IsBridged(Pass1(db), r)
  {
  }

  lemma SameBridgeable(db: Db, after: Db, r: Id)
    requires after.recurring == db.recurring && after.items == db.items && after.plans == db.plans
    ensures IsBridgeable(after, r) <==> IsBridgeable(db, r)
  {
    assert forall k, p :: HasSingleItem(after, r, k, p) <==> HasSingleItem(db, r, k, p);
  }

  /** After the passes, whatever is bridged or can be is billed. */
  ghost predicate Settled(db: Db) {
    && (forall r | r in db.recurring && (IsBridged(db, r) || IsBridgeable(db, r)) :: exists i :: Bills(db, i, r))
    && (forall i | i in db.orders :: !Linkable(db, db.orders[i]))
  }

  lemma Pass3Links(db: Db)
    ensures forall i | i in Pass3(db).orders :: !Linkable(Pass3(db), Pass3(db).orders[i])
  {
    assert SoleServices(Pass3(db)) == SoleServices(db);
  }

  /** Whatever is bridged after the passes is billed: by Pass 1, or by the row of Pass 2 that bridges it. */
  lemma BridgedIsBilled(db: Db, after: Db, i: Id, r: Id) returns (biller: Id)
    requires Upgraded(db, after) && r in db.recurring && Bridges(after, i, r)
    ensures Bills(after, biller, r)
  {
    var one := Pass1(db);
    var mid :| Pass2(one, mid) && after == Pass3(mid);
    var keys: map<JoinRow, Id> :| keys.Keys == JoinRows(one, Pass2Orders(one)) && SelectInserted(one, keys, "c2b", mid);
    if i in one.services {
      Pass1Row(db, i, r);
      biller := Pass1BillsBridged(db, i, r);
      SelectKeepsBiller(one, keys, "c2b", mid, biller, r);
    } else {
      SelectedRowBills(one, keys, "c2b", mid, i, r);
      biller := i;
    }
  }

  /** A bridgeable recurring order that nothing bridges is a target of Pass 2. */
  lemma BridgeableIsBilled(db: Db, after: Db, r: Id) returns (biller: Id)
    requires Upgraded(db, after) && IsBridgeable(db, r) && !IsBridged(db, r)
    ensures Bills(after, biller, r)
  {
    var one := Pass1(db);
    var mid :| Pass2(one, mid) && after == Pass3(mid);
    var keys: map<JoinRow, Id> :| keys.Keys == JoinRows(one, Pass2Orders(one)) && SelectInserted(one, keys, "c2b", mid);
    SameBridgeable(db, one, r);
    NotBridgedAfterPass1(db, r);
    Pass2JoinsTargets(one);
    biller := TargetIsBilled(one, Targets(one), keys, "c2b", mid, r);
  }

  lemma TargetIsBilled(db: Db, orders: set<Id>, keys: map<JoinRow, Id>, source: string, after: Db, r: Id) returns (biller: Id)
    requires keys.Keys == JoinRows(db, orders) && SelectInserted(db, keys, source, after)
    requires r in orders && IsBridgeable(db, r)
    ensures Bills(after, biller, r)
  {
    var j := RowOfOrder(db, r);
    IsJoined(db, j, orders);
    biller := keys[j];
    JoinedRowBills(db, keys, source, after, j);
  }

  lemma UpgradeKeepsRows(db: Db, after: Db, r: Id)
    requires Upgraded(db, after)
    ensures after.recurring == db.recurring && after.items == db.items && after.plans == db.plans
    ensures IsBridged(db, r) ==> IsBridged(after, r)
  {
    if i :| i in db.services && db.services[i].recurring == Some(r) {
      Pass1Row(db, i, r);
      assert Bridges(after, i, r);
    }
  }

  /** Two services billing one order, or two plans of one product, do not keep the passes from settling. */
  lemma UpgradeSettles(db: Db, after: Db)
    requires Upgraded(db, after)
    ensures Settled(after)
  {
    forall r | r in after.recurring && (IsBridged(after, r) || IsBridgeable(after, r)) ensures exists i :: Bills(after, i, r) {
      UpgradeKeepsRows(db, after, r);
      SameBridgeable(db, after, r);
      if i :| i in after.services && after.services[i].recurring == Some(r) {
        var biller := BridgedIsBilled(db, after, i, r);
      } else {
        var biller := BridgeableIsBilled(db, after, r);
      }
    }
    var mid :| Pass2(Pass1(db), mid) && after == Pass3(mid);
    Pass3Links(mid);
  }

  lemma SettledPass1(db: Db)
    requires Settled(db)
    ensures Pass1(db) == db
  {
    forall i | i in db.services ensures !Picked(db, i) {
      var r := db.services[i].recurring;
      if r.Some? && r.value in db.recurring {
        assert IsBridged(db, r.value);
        var j :| Bills(db, j, r.value);
      }
    }
    assert Pass1(db).services == db.services;
  }

  lemma SettledTargets(db: Db)
    requires Settled(db)
    ensures JoinRows(db, Pass2Orders(db)) == {}
  {
    Pass2JoinsTargets(db);
    forall r ensures r !in Targets(db) {
      if r in db.recurring && IsBridgeable(db, r) {
        var i :| Bills(db, i, r);
        assert IsBridged(db, r);
      }
    }
  }

  lemma SettledPass3(db: Db)
    requires Settled(db)
    ensures Pass3(db) == db
  {
    forall i | i in db.orders ensures Pass3(db).orders[i] == db.orders[i] {
      assert !Linkable(db, db.orders[i]);
    }
    assert Pass3(db).orders == db.orders;
  }

  /** A settled database is left as it is by another run. */
  lemma SettledIsFixed(db: Db, after: Db)
    requires Settled(db) && Upgraded(db, after)
    ensures after == db
  {
    SettledPass1(db);
    SettledTargets(db);
    SettledPass3(db);
    var mid :| Pass2(db, mid) && after == Pass3(mid);
    var keys: map<JoinRow, Id> :| keys.Keys == JoinRows(db, Pass2Orders(db)) && SelectInserted(db, keys, "c2b", mid);
    NothingInserted(db, keys, "c2b", mid);
  }

  /** Repeating the passes changes nothing. */
  lemma UpgradeTwice(db: Db, after: Db, again: Db)
    requires Upgraded(db, after) && Upgraded(after, again)
    ensures again == after
  {
    UpgradeSettles(db, after);
    SettledIsFixed(after, again);
  }

  /* ---------- The migrate step of ld1 ---------- */

  /** ACTIVE recurring orders that no service bills. */
  function Unbridged(db: Db): set<Id> {
    set r | r in db.recurring && db.recurring[r].status == ACTIVE &&
            !exists i :: i in db.services && db.services[i].recurring == Some(r) && db.services[i].billing.Some?
  }

  /** What the abort check reports: no client, not exactly one item, or no plan for it. */
  predicate CannotMigrate(db: Db, r: Id) {
    r in db.recurring && (db.recurring[r].client.None? || !exists k, p :: k in db.items && p in db.plans && HasSingleItem(db, r, k, p))
  }

  function Stuck(db: Db): set<Id> {
    set r | r in Unbridged(db) && CannotMigrate(db, r)
  }

  datatype MigrateError = CannotMigrateSafely | UnbridgedRemain

  /** The outcome of `_migrate_unbridged`, `mid` being the database after its INSERT. */
  ghost predicate Migrated(db: Db, outcome: Result<Db, MigrateError>) {
    if Stuck(db) != {} then outcome == Err(CannotMigrateSafely)
    else exists mid :: InsertedForUnbridged(db, mid) &&
                       outcome == if Unbridged(mid) != {} then Err(UnbridgedRemain) else Ok(Pass3(mid))
  }

  ghost predicate InsertedForUnbridged(db: Db, mid: Db) {
    exists keys: map<JoinRow, Id> :: keys.Keys == JoinRows(db, Unbridged(db)) && SelectInserted(db, keys, "ld1", mid)
  }

  lemma MigratableIsBridgeable(db: Db, r: Id)
    requires r in db.recurring
    ensures !CannotMigrate(db, r) <==> IsBridgeable(db, r)
  {
  }

  lemma UnstuckIsBridgeable(db: Db, r: Id)
    requires Stuck(db) == {} && r in Unbridged(db)
    ensures IsBridgeable(db, r)
  {
    assert r !in Stuck(db);
    MigratableIsBridgeable(db, r);
  }

  /** Nothing is left unbilled, whatever billed what before. */
  lemma NoneRemain(db: Db, mid: Db)
    requires Stuck(db) == {} && InsertedForUnbridged(db, mid)
    ensures Unbridged(mid) == {}
  {
    var keys: map<JoinRow, Id> :| keys.Keys == JoinRows(db, Unbridged(db)) && SelectInserted(db, keys, "ld1", mid);
    forall r | r in db.recurring && db.recurring[r].status == ACTIVE ensures exists i :: Bills(mid, i, r) {
      if r in Unbridged(db) {
        UnstuckIsBridgeable(db, r);
        var biller := TargetIsBilled(db, Unbridged(db), keys, "ld1", mid, r);
      } else {
        var i :| i in db.services && db.services[i].recurring == Some(r) && db.services[i].billing.Some?;
        SelectKeepsBiller(db, keys, "ld1", mid, i, r);
      }
    }
    forall r ensures r !in Unbridged(mid) {
      if r in db.recurring && db.recurring[r].status == ACTIVE {
        var i :| Bills(mid, i, r);
      }
    }
    assert Unbridged(mid) == {};
  }

  lemma InsertForUnbridged(db: Db, mid: Db)
    requires PlansUnique(db) && AtMostOneBills(db) && Stuck(db) == {} && InsertedForUnbridged(db, mid)
    ensures AtMostOneBills(mid)
  {
    var keys: map<JoinRow, Id> :| keys.Keys == JoinRows(db, Unbridged(db)) && SelectInserted(db, keys, "ld1", mid);
    forall r | r in Unbridged(db) ensures IsBridgeable(db, r) {
      UnstuckIsBridgeable(db, r);
    }
    JoinIsPerOrder(db, Unbridged(db));
    var made := InsertedPerOrder(db, Unbridged(db), keys, "ld1", mid);
    forall r, i | r in made ensures !Bills(db, i, r) {
      assert r in Unbridged(db);
    }
    InsertedBills(db, made, "ld1", mid);
  }

  /**
   The second abort can never fire, on any database; and with unique plans and no order billed twice before,
   each ACTIVE recurring order is billed exactly once afterwards.
   */
  lemma MigrateBillsEveryActiveOnce(db: Db, outcome: Result<Db, MigrateError>)
    requires Migrated(db, outcome)
    ensures outcome != Err(UnbridgedRemain)
    ensures outcome.Err? <==> Stuck(db) != {}
    ensures outcome.Ok? ==>
              forall r | r in db.recurring && db.recurring[r].status == ACTIVE :: exists i :: Bills(outcome.value, i, r)
    ensures outcome.Ok? && PlansUnique(db) && AtMostOneBills(db) ==>
              AtMostOneBills(outcome.value) &&
              forall r | r in db.recurring && db.recurring[r].status == ACTIVE :: ExactlyOneBills(outcome.value, r)
  {
    if Stuck(db) == {} {
      var mid :| InsertedForUnbridged(db, mid) &&
                 outcome == if Unbridged(mid) != {} then Err(UnbridgedRemain) else Ok(Pass3(mid));
      NoneRemain(db, mid);
      forall r | r in db.recurring && db.recurring[r].status == ACTIVE ensures exists i :: Bills(outcome.value, i, r) {
        BilledAfterPass3(mid, r);
      }
      if PlansUnique(db) && AtMostOneBills(db) {
        InsertForUnbridged(db, mid);
        OnceAfterPass3(mid);
      }
    }
  }

  lemma BilledAfterPass3(mid: Db, r: Id)
    requires Unbridged(mid) == {} && r in mid.recurring && mid.recurring[r].status == ACTIVE
    ensures exists i :: Bills(Pass3(mid), i, r)
  {
    assert r !in Unbridged(mid);
    var i :| i in mid.services && mid.services[i].recurring == Some(r) && mid.services[i].billing.Some?;
    assert Bills(Pass3(mid), i, r);
  }

  lemma OnceAfterPass3(mid: Db)
    requires Unbridged(mid) == {} && AtMostOneBills(mid)
    ensures AtMostOneBills(Pass3(mid))
    ensures forall r | r in mid.recurring && mid.recurring[r].status == ACTIVE :: ExactlyOneBills(Pass3(mid), r)
  {
    var after := Pass3(mid);
    assert forall i, r :: Bills(after, i, r) <==> Bills(mid, i, r);
    forall r | r in mid.recurring && mid.recurring[r].status == ACTIVE ensures ExactlyOneBills(after, r) {
      BilledAfterPass3(mid, r);
      var i :| Bills(after, i, r);
      BilledOnce(after, i, r);
    }
  }

  /* ---------- Downgrade ---------- */

  /** Services whose billing has no recurring order behind it. */
  function Unbacked(db: Db): set<Id> {
    set i | i in db.services && db.services[i].billing.Some? && db.services[i].recurring.None?
  }

  /** The plan of service `i` is bridged to a product. */
  predicate HasProduct(db: Db, i: Id) {
    i in db.services && db.services[i].plan in db.plans && db.plans[db.services[i].plan].product.Some?
  }

  /** The keys drawn for the new recurring orders and items of the services `done`, by service. */
  ghost predicate Drawn(db: Db, done: set<Id>, made: map<Id, Id>, templates: map<Id, Id>) {
    && done <= Unbacked(db)
    && made.Keys == done && Injective(made) && (forall i | i in made :: made[i] !in db.recurring)
    && templates.Keys == (set i | i in done && HasProduct(db, i))
    && Injective(templates) && (forall i | i in templates :: templates[i] !in db.items)
  }

  ghost predicate Draws(db: Db, made: map<Id, Id>, templates: map<Id, Id>) {
    Drawn(db, Unbacked(db), made, templates)
  }

  /** Keys that other rows point at exist. */
  ghost predicate KeysOk(db: Db) {
    && (forall k | k in db.items :: db.items[k].recurring in db.recurring)
    && (forall i | i in db.services && db.services[i].recurring.Some? :: db.services[i].recurring.value in db.recurring)
    && (forall o | o in db.orders && db.orders[o].recurring.Some? :: db.orders[o].recurring.value in db.recurring)
  }

  function RowOf(s: Service, now: int): Recurring
    requires s.recurrence.Some? && s.billing.Some?
  {
    Recurring(now, Some(s.client), s.company, s.recurrence.value, s.end, s.next, s.last, s.billing.value)
  }

  /** recurring_order.recurrence is NOT NULL. */
  ghost predicate AllHaveRecurrence(db: Db) {
    forall i | i in Unbacked(db) :: db.services[i].recurrence.Some?
  }

  /** The recurring orders inserted so far, one for each service in `made`. */
  ghost predicate RecurringMade(db: Db, made: map<Id, Id>, now: int, recurring: map<Id, Recurring>)
    requires AllHaveRecurrence(db) && made.Keys <= Unbacked(db)
  {
    && recurring.Keys == db.recurring.Keys + Range(made)
    && (forall r | r in db.recurring :: recurring[r] == db.recurring[r])
    && (forall i | i in made :: recurring[made[i]] == RowOf(db.services[i], now))
  }

  function ItemOf(db: Db, i: Id, r: Id): TemplateItem
    requires HasProduct(db, i)
  {
    TemplateItem(r, db.plans[db.services[i].plan].product.value, db.services[i].quantity)
  }

  /** The template items inserted so far, one for each service in `templates`. */
  ghost predicate ItemsMade(db: Db, made: map<Id, Id>, templates: map<Id, Id>, items: map<Id, TemplateItem>)
    requires templates.Keys <= made.Keys && forall i | i in templates :: HasProduct(db, i)
  {
    && items.Keys == db.items.Keys + Range(templates)
    && (forall k | k in db.items :: items[k] == db.items[k])
    && (forall i | i in templates :: items[templates[i]] == ItemOf(db, i, made[i]))
  }

  ghost predicate IsMaterialised(db: Db, made: map<Id, Id>, templates: map<Id, Id>, now: int, mid: Db)
    requires AllHaveRecurrence(db) && Draws(db, made, templates)
  {
    && RecurringMade(db, made, now, mid.recurring)
    && ItemsMade(db, made, templates, mid.items)
    && mid.plans == db.plans
    && mid.services == Backed(db, made)
    && mid.orders == Relinked(db, made)
  }

  function Backed(db: Db, made: map<Id, Id>): map<Id, Service> {
    map i | i in db.services :: if i in made then db.services[i].(recurring := Some(made[i])) else db.services[i]
  }

  function Relink(o: Order, made: map<Id, Id>): Order {
    if o.service.Some? && o.service.value in made && o.isRecurring && o.recurring.None? then
      o.(recurring := Some(made[o.service.value]))
    else o
  }

  function Relinked(db: Db, made: map<Id, Id>): map<Id, Order> {
    map o | o in db.orders :: Relink(db.orders[o], made)
  }

  /** Rows of Pass 2 that nothing else depends on are deleted. */
  predicate IsDeleted(s: Service, i: Id, dependents: set<Id>) {
    s.source == Some("c2b") && i !in dependents
  }

  /** The six billing columns and the marker, dropped and later added again. */
  function Blank(s: Service): Service {
    s.(recurrence := None, end := None, next := None, last := None, billing := None, quantity := 1, source := None)
  }

  /** What the later upgrade starts from. */
  function Dropped(mid: Db, dependents: set<Id>): Db {
    mid.(services := map i | i in mid.services && !IsDeleted(mid.services[i], i, dependents) :: Blank(mid.services[i]),
         orders := map o | o in mid.orders ::
           var s := mid.orders[o].service;
           if s.Some? && s.value in mid.services && IsDeleted(mid.services[s.value], s.value, dependents)
           then mid.orders[o].(service := None) else mid.orders[o])
  }

  ghost predicate Downgraded(db: Db, dependents: set<Id>, after: Db) {
    exists made, templates, now, mid :: IsDowngradeOf(db, dependents, made, templates, now, mid, after)
  }

  ghost predicate IsDowngradeOf(db: Db, dependents: set<Id>, made: map<Id, Id>, templates: map<Id, Id>, now: int, mid: Db, after: Db) {
    && AllHaveRecurrence(db) && Draws(db, made, templates)
    && IsMaterialised(db, made, templates, now, mid) && after == Dropped(mid, dependents)
  }

  /** Every order through the downgrade: relinked when it is a RECURRING one of an unbacked service, and cut off a deleted service. */
  lemma DowngradedOrder(db: Db, dependents: set<Id>, made: map<Id, Id>, templates: map<Id, Id>, now: int, mid: Db, after: Db, o: Id)
    requires IsDowngradeOf(db, dependents, made, templates, now, mid, after) && o in db.orders
    ensures o in after.orders
    ensures var p, q := db.orders[o], after.orders[o];
            && p == q.(recurring := p.recurring, service := p.service)
            && q.recurring == (if p.recurring.None? && p.isRecurring && p.service.Some? && p.service.value in Unbacked(db)
                               then Some(made[p.service.value]) else p.recurring)
            && q.service == (if p.service.Some? && p.service.value in db.services && p.service.value !in after.services
                             then None else p.service)
  {
  }

  /** Every service through the downgrade: only rows of the upgrade without dependents go, and all columns it added are cleared. */
  lemma DowngradedService(db: Db, dependents: set<Id>, made: map<Id, Id>, templates: map<Id, Id>, now: int, mid: Db, after: Db, i: Id)
    requires IsDowngradeOf(db, dependents, made, templates, now, mid, after)
    ensures i in after.services <==> i in db.services && !(db.services[i].source == Some("c2b") && i !in dependents)
    ensures i in after.services ==>
              var s, t := db.services[i], after.services[i];
              && t.recurrence.None? && t.end.None? && t.next.None? && t.last.None? && t.billing.None? && t.quantity == 1 && t.source.None?
              && t.recurring == (if i in Unbacked(db) then Some(made[i]) else s.recurring)
              && s == t.(recurrence := s.recurrence, end := s.end, next := s.next, last := s.last, billing := s.billing,
                         quantity := s.quantity, source := s.source, recurring := s.recurring)
  {
  }

  /** What the downgrade adds: a recurring order for each unbacked service, with its columns; no row is overwritten. */
  lemma DowngradedRecurring(db: Db, dependents: set<Id>, made: map<Id, Id>, templates: map<Id, Id>, now: int, mid: Db, after: Db, r: Id)
    requires IsDowngradeOf(db, dependents, made, templates, now, mid, after)
    ensures r in db.recurring ==> r in after.recurring && after.recurring[r] == db.recurring[r]
    ensures r in after.recurring && r !in db.recurring <==> exists i :: i in Unbacked(db) && made[i] == r
    ensures forall i, j | i in Unbacked(db) && j in Unbacked(db) && made[i] == made[j] :: i == j
    ensures forall i | i in Unbacked(db) ::
              var s, ro := db.services[i], after.recurring[made[i]];
              && ro.client == Some(s.client) && ro.company == s.company && Some(ro.recurrence) == s.recurrence && ro.end == s.end
              && ro.next == s.next && ro.last == s.last && Some(ro.status) == s.billing && ro.created == now
  {
    assert r in after.recurring && r !in db.recurring ==> r in Range(made);
  }

  /** It adds an item where the plan has a product, and touches no other item and no plan. */
  lemma DowngradedItems(db: Db, dependents: set<Id>, made: map<Id, Id>, templates: map<Id, Id>, now: int, mid: Db, after: Db, k: Id)
    requires IsDowngradeOf(db, dependents, made, templates, now, mid, after)
    ensures after.plans == db.plans
    ensures k in db.items ==> k in after.items && after.items[k] == db.items[k]
    ensures k in after.items && k !in db.items <==> exists i :: i in Unbacked(db) && HasProduct(db, i) && templates[i] == k
    ensures forall i | i in Unbacked(db) && HasProduct(db, i) ::
              var s, t := db.services[i], after.items[templates[i]];
              t.recurring == made[i] && t.quantity == s.quantity && Some(t.product) == db.plans[s.plan].product
  {
    assert k in after.items && k !in db.items ==> k in Range(templates);
  }

  /** What is unbacked: a service that bills and points at no recurring order. */
  lemma UnbackedIff(db: Db, i: Id)
    ensures i in Unbacked(db) <==> i in db.services && db.services[i].billing != None && db.services[i].recurring == None
  {
  }

  /** uq_order_active_recurring_due_date */
  ghost predicate RecurringDueUnique(orders: map<Id, Order>) {
    forall a, b | a in orders && b in orders && !orders[a].cancelled && !orders[b].cancelled &&
                  orders[a].recurring.Some? && orders[a].recurring == orders[b].recurring &&
                  orders[a].due.Some? && orders[a].due == orders[b].due :: a == b
  }

  /** uq_order_recurring_service_due */
  ghost predicate ServiceDueUnique(orders: map<Id, Order>) {
    forall a, b | a in orders && b in orders && !orders[a].cancelled && !orders[b].cancelled &&
                  orders[a].isRecurring && orders[b].isRecurring &&
                  orders[a].service.Some? && orders[a].service == orders[b].service &&
                  orders[a].due.Some? && orders[a].due == orders[b].due :: a == b
  }

  /** Relinking orders to the new recurring orders cannot break the older unique index. */
  lemma RelinkKeepsDueUnique(db: Db, made: map<Id, Id>, templates: map<Id, Id>)
    requires KeysOk(db) && Draws(db, made, templates)
    requires RecurringDueUnique(db.orders) && ServiceDueUnique(db.orders)
    ensures RecurringDueUnique(Relinked(db, made)) && ServiceDueUnique(Relinked(db, made))
  {
    var after := Relinked(db, made);
    forall a, b | a in after && b in after && !after[a].cancelled && !after[b].cancelled &&
                  after[a].recurring.Some? && after[a].recurring == after[b].recurring &&
                  after[a].due.Some? && after[a].due == after[b].due
      ensures a == b
    {
      RelinkSeparates(db, made, templates, a, b);
    }
  }

  lemma RelinkedOrder(db: Db, made: map<Id, Id>, templates: map<Id, Id>, o: Order)
    requires Draws(db, made, templates)
    requires o.recurring.Some? ==> o.recurring.value in db.recurring
    ensures var p := Relink(o, made);
            && p.due == o.due && p.cancelled == o.cancelled && p.service == o.service
            && (p.recurring.Some? && p.recurring.value in db.recurring ==> p == o)
            && (p.recurring.Some? && p.recurring.value !in db.recurring ==>
                  o.isRecurring && o.service.Some? && o.service.value in made && p.recurring == Some(made[o.service.value]))
  {
    if o.service.Some? && o.service.value in made {
      DrawnKeyIsNew(db, made, templates, o.service.value);
    }
  }

  lemma SameDraw(db: Db, made: map<Id, Id>, templates: map<Id, Id>, i: Id, j: Id)
    requires Draws(db, made, templates) && i in made && j in made && made[i] == made[j]
    ensures i == j
  {
  }

  lemma DrawnKeyIsNew(db: Db, made: map<Id, Id>, templates: map<Id, Id>, i: Id)
    requires Draws(db, made, templates) && i in made
    ensures made[i] !in db.recurring
  {
  }

  lemma RelinkSeparates(db: Db, made: map<Id, Id>, templates: map<Id, Id>, a: Id, b: Id)
    requires KeysOk(db) && Draws(db, made, templates)
    requires RecurringDueUnique(db.orders) && ServiceDueUnique(db.orders)
    requires a in db.orders && b in db.orders
    requires var x, y := Relink(db.orders[a], made), Relink(db.orders[b], made);
             && !x.cancelled && !y.cancelled && x.recurring.Some? && x.recurring == y.recurring && x.due.Some? && x.due == y.due
    ensures a == b
  {
    var x := Relink(db.orders[a], made);
    RelinkedOrder(db, made, templates, db.orders[a]);
    RelinkedOrder(db, made, templates, db.orders[b]);
    if x.recurring.value !in db.recurring {
      SameDraw(db, made, templates, db.orders[a].service.value, db.orders[b].service.value);
    }
  }

  /** The one service behind a recurring order made by the downgrade. */
  lemma MadeServiceIsPicked(db: Db, dependents: set<Id>, made: map<Id, Id>, templates: map<Id, Id>, now: int, mid: Db, i: Id)
    requires KeysOk(db) && AllHaveRecurrence(db) && Draws(db, made, templates) && IsMaterialised(db, made, templates, now, mid)
    requires i in made && !IsDeleted(db.services[i], i, dependents)
    ensures var d := Dropped(mid, dependents);
            && i in d.services && Picked(d, i)
            && d.services[i] == Blank(db.services[i].(recurring := Some(made[i])))
            && made[i] in d.recurring && d.recurring[made[i]] == RowOf(db.services[i], now)
  {
    var d := Dropped(mid, dependents);
    assert i in Unbacked(db);
    assert mid.services[i] == db.services[i].(recurring := Some(made[i]));
    assert made[i] in Range(made);
    forall j | j in d.services ensures d.services[j].recurring == Some(made[i]) ==> j == i {
      assert db.services[j].recurring.Some? ==> db.services[j].recurring.value in db.recurring;
      assert d.services[j].recurring == if j in made then Some(made[j]) else db.services[j].recurring;
    }
  }

  lemma QuantityIsCarried(db: Db, dependents: set<Id>, made: map<Id, Id>, templates: map<Id, Id>, now: int, mid: Db, i: Id)
    requires KeysOk(db) && AllHaveRecurrence(db) && Draws(db, made, templates) && IsMaterialised(db, made, templates, now, mid)
    requires i in made
    ensures QuantityOf(Dropped(mid, dependents), made[i]) == if HasProduct(db, i) then db.services[i].quantity else 1
  {
    forall k | k in mid.items ensures mid.items[k].recurring == made[i] ==> i in templates && k == templates[i] {
      if k in db.items {
        assert mid.items[k].recurring in db.recurring;
      } else {
        var j :| j in templates && templates[j] == k;
        assert mid.items[k].recurring == made[j];
      }
    }
    if i in templates {
      var k := templates[i];
      assert k in Range(templates) && k in mid.items && mid.items[k].recurring == made[i];
      assert HasTopQuantity(mid.items, k);
      assert TopQuantities(mid.items)[made[i]] == mid.items[k].quantity;
    }
  }

  /** Downgrade then upgrade restores what a service without a legacy recurring order bills. */
  lemma DowngradeThenUpgrade(db: Db, dependents: set<Id>, down: Db, up: Db, i: Id)
    requires KeysOk(db) && Downgraded(db, dependents, down) && Upgraded(down, up)
    requires i in Unbacked(db) && !IsDeleted(db.services[i], i, dependents)
    ensures i in up.services
    ensures var s, t := db.services[i], up.services[i];
            && t.recurrence == s.recurrence && t.end == s.end && t.next == s.next && t.last == s.last && t.billing == s.billing
            && t.client == s.client && t.plan == s.plan && t.company == s.company && t.active == s.active
            && (t.quantity == s.quantity <==> HasProduct(db, i) || s.quantity == 1)
  {
    var made, templates, now, mid :| IsDowngradeOf(db, dependents, made, templates, now, mid, down);
    MadeServiceIsPicked(db, dependents, made, templates, now, mid, i);
    QuantityIsCarried(db, dependents, made, templates, now, mid, i);
    UpgradeAbsorbs(down, up, i);
  }

  /** What the upgrade makes of a service that Pass 1 picks. */
  lemma UpgradeAbsorbs(db: Db, after: Db, i: Id)
    requires Upgraded(db, after) && i in db.services && Picked(db, i)
    ensures i in after.services
    ensures var r := db.services[i].recurring.value;
            after.services[i] == Absorb(db.services[i], db.recurring[r], QuantityOf(db, r))
  {
    var mid :| Pass2(Pass1(db), mid) && after == Pass3(mid);
  }

  /* ---------- The migrations themselves ---------- */

  class SubscriptionTables {
    var recurring: map<Id, Recurring>
    var items: map<Id, TemplateItem>
    var plans: map<Id, Plan>
    var services: map<Id, Service>
    var orders: map<Id, Order>

    function State(): Db
      reads this
    {
      Db(recurring, items, plans, services, orders)
    }

    constructor (db: Db)
      ensures State() == db
    {
      recurring, items, plans, services, orders := db.recurring, db.items, db.plans, db.services, db.orders;
    }

    method InsertService(db: Db, ghost keys: map<JoinRow, Id>, source: string, j: JoinRow) returns (ghost more: map<JoinRow, Id>)
      requires RowsInserted(db, keys, source, services) && j !in keys && CanInsert(db, j)
      modifies `services
      ensures more.Keys == keys.Keys + {j} && RowsInserted(db, more, source, services)
    {
      var id := FreshId(services.Keys);
      InsertOneMore(db, keys, source, services, j, id);
      services := services[id := NewService(db, j.order, j.item, j.plan, source)];
      more := keys[j := id];
    }

    /** INSERT ... SELECT: a service for each of the joined `rows`. */
    method InsertServices(db: Db, rows: set<JoinRow>, source: string) returns (ghost keys: map<JoinRow, Id>)
      requires db == State() && AllInsertable(db, rows)
      modifies `services
      ensures keys.Keys == rows && RowsInserted(db, keys, source, services)
    {
      var left := rows;
      ghost var done := {};
      keys := map[];
      NoRowsInserted(db, source);
      while left != {}
        invariant Splits(rows, left, done) && keys.Keys == done
        invariant RowsInserted(db, keys, source, services)
        decreases |left|
      {
        var j :| j in left;
        assert j in rows;
        keys := InsertService(db, keys, source, j);
        OneLess(rows, left, done, j);
        left, done := left - {j}, done + {j};
      }
      assert done == rows;
    }

    /** The three passes. */
    method Upgrade()
      modifies this
      ensures Upgraded(old(State()), State())
    {
      services := Pass1(State()).services;
      ghost var one := State();
      var rows := JoinRows(State(), Pass2Orders(State()));
      ghost var keys := InsertServices(State(), rows, "c2b");
      assert Pass2(one, State());
      orders := Pass3(State()).orders;
    }

    /** The recurring order of service `i`, and its template item when the plan has a product. */
    method MaterialiseRow(db: Db, ghost done: set<Id>, made: map<Id, Id>, ghost templates: map<Id, Id>, now: int, i: Id)
      returns (more: map<Id, Id>, ghost moreItems: map<Id, Id>)
      requires MadeFor(db, done, made, templates, now, recurring, items)
      requires i in Unbacked(db) && i !in done
      modifies `recurring, `items
      ensures MadeFor(db, done + {i}, more, moreItems, now, recurring, items)
    {
      var r := FreshId(recurring.Keys);
      var k := FreshId(items.Keys);
      moreItems := MakeOneMore(db, done, made, templates, now, recurring, items, i, r, k);
      more := made[i := r];
      recurring := recurring[r := RowOf(db.services[i], now)];
      items := WithItem(db, items, i, r, k);
    }

    /** A recurring order for each service of `unbacked`, with a template item when its plan has a product. */
    method MaterialiseRows(unbacked: set<Id>, now: int) returns (made: map<Id, Id>, ghost templates: map<Id, Id>)
      requires unbacked == Unbacked(State()) && AllHaveRecurrence(State())
      modifies `recurring, `items
      ensures MadeFor(old(State()), unbacked, made, templates, now, recurring, items)
    {
      var db := State();
      made, templates := map[], map[];
      var left := unbacked;
      ghost var done := {};
      NothingMade(db, now);
      while left != {}
        invariant Splits(unbacked, left, done)
        invariant MadeFor(db, done, made, templates, now, recurring, items)
        decreases |left|
      {
        NonEmpty(left);
        var i :| i in left;
        made, templates := MaterialiseRow(db, done, made, templates, now, i);
        OneLess(unbacked, left, done, i);
        left, done := left - {i}, done + {i};
      }
      assert done == unbacked;
    }

    /** Reverse materialisation, then the deletion of Pass 2 rows and of the columns. */
    method Downgrade(dependents: set<Id>, now: int) returns (ok: bool)
      modifies this
      ensures ok <==> AllHaveRecurrence(old(State()))
      ensures if ok then Downgraded(old(State()), dependents, State()) else State() == old(State())
    {
      ghost var db := State();
      var unbacked := Unbacked(State());
      if exists i :: i in unbacked && services[i].recurrence.None? {
        return false;
      }
      var made, templates := MaterialiseRows(unbacked, now);
      ghost var inserted := State();
      services, orders := Backed(State(), made), Relinked(State(), made);
      Materialise(db, made, templates, now, inserted, State());
      ghost var mid := State();
      var after := Dropped(State(), dependents);
      services, orders := after.services, after.orders;
      assert IsDowngradeOf(db, dependents, made, templates, now, mid, State());
      ok := true;
    }

    /** The migrate step: abort before anything is written, or insert, repoint and count what is left. */
    method MigrateUnbridged() returns (error: Option<MigrateError>)
      modifies this
      ensures error == Some(CannotMigrateSafely) ==> State() == old(State())
      ensures Migrated(old(State()), match error case None => Ok(State()) case Some(e) => Err(e))
      ensures error != Some(UnbridgedRemain)
    {
      ghost var db := State();
      if Stuck(State()) != {} {
        return Some(CannotMigrateSafely);
      }
      var rows := JoinRows(State(), Unbridged(State()));
      forall j | j in rows ensures CanInsert(db, j) {
        assert j.order !in Stuck(db);
      }
      ghost var keys := InsertServices(State(), rows, "ld1");
      ghost var mid := State();
      assert InsertedForUnbridged(db, mid);
      orders := Pass3(State()).orders;
      assert State() == Pass3(mid) && Unbridged(State()) == Unbridged(mid);
      error := if Unbridged(State()) != {} then Some(UnbridgedRemain) else None;
      NoneRemain(db, mid);
    }
  }

  lemma NoRowsInserted(db: Db, source: string)
    ensures RowsInserted(db, map[], source, db.services)
  {
  }

  lemma InsertOneMore(db: Db, keys: map<JoinRow, Id>, source: string, services: map<Id, Service>, j: JoinRow, id: Id)
    requires RowsInserted(db, keys, source, services) && j !in keys && id !in services && CanInsert(db, j)
    ensures RowsInserted(db, keys[j := id], source,
                         services[id := NewService(db, j.order, j.item, j.plan, source)])
  {
    KeysExtend(keys, j, id);
    forall k | k in keys ensures keys[k] in services && keys[k] != id {
    }
  }

  lemma KeysExtend(keys: map<JoinRow, Id>, j: JoinRow, id: Id)
    requires j !in keys
    ensures KeysOf(keys[j := id]) == KeysOf(keys) + {id}
  {
    var more := keys[j := id];
    assert more[j] == id && forall k | k in keys :: more[k] == keys[k];
  }

  lemma Materialise(db: Db, made: map<Id, Id>, templates: map<Id, Id>, now: int, inserted: Db, mid: Db)
    requires AllHaveRecurrence(db) && Draws(db, made, templates)
    requires inserted == db.(recurring := inserted.recurring, items := inserted.items)
    requires RecurringMade(db, made, now, inserted.recurring) && ItemsMade(db, made, templates, inserted.items)
    requires mid == inserted.(services := Backed(inserted, made), orders := Relinked(inserted, made))
    ensures IsMaterialised(db, made, templates, now, mid)
  {
    assert Backed(inserted, made) == Backed(db, made);
    assert Relinked(inserted, made) == Relinked(db, made);
  }

  /** Keys drawn and rows inserted for the services `done`. */
  ghost predicate MadeFor(db: Db, done: set<Id>, made: map<Id, Id>, templates: map<Id, Id>, now: int,
                          recurring: map<Id, Recurring>, items: map<Id, TemplateItem>) {
    && AllHaveRecurrence(db) && Drawn(db, done, made, templates)
    && RecurringMade(db, made, now, recurring) && ItemsMade(db, made, templates, items)
  }

  lemma NothingMade(db: Db, now: int)
    requires AllHaveRecurrence(db)
    ensures MadeFor(db, {}, map[], map[], now, db.recurring, db.items)
  {
    var none: map<Id, Id> := map[];
    assert Range(none) == {};
  }

  /** A template item for service `i`, when its plan has a product. */
  function WithItem(db: Db, items: map<Id, TemplateItem>, i: Id, r: Id, k: Id): map<Id, TemplateItem> {
    if HasProduct(db, i) then items[k := ItemOf(db, i, r)] else items
  }

  lemma MakeOneMore(db: Db, done: set<Id>, made: map<Id, Id>, templates: map<Id, Id>, now: int,
                    recurring: map<Id, Recurring>, items: map<Id, TemplateItem>, i: Id, r: Id, k: Id)
    returns (more: map<Id, Id>)
    requires MadeFor(db, done, made, templates, now, recurring, items)
    requires i in Unbacked(db) && i !in done && r !in recurring && k !in items
    ensures MadeFor(db, done + {i}, made[i := r], more, now, recurring[r := RowOf(db.services[i], now)],
                    WithItem(db, items, i, r, k))
  {
    more := if HasProduct(db, i) then templates[i := k] else templates;
    OneMoreRecurring(db, made, now, recurring, i, r);
    DrawOneMore(db, done, made, templates, i, r, k);
    OneMoreItem(db, made, templates, items, i, r, k);
  }

  /** Drawing keys for one more service. */
  lemma DrawOneMore(db: Db, done: set<Id>, made: map<Id, Id>, templates: map<Id, Id>, i: Id, r: Id, k: Id)
    requires Drawn(db, done, made, templates) && i in Unbacked(db) && i !in done
    requires r !in db.recurring && r !in Range(made) && k !in db.items && k !in Range(templates)
    ensures Drawn(db, done + {i}, made[i := r], if HasProduct(db, i) then templates[i := k] else templates)
  {
    InjectiveExtends(made, i, r);
    if HasProduct(db, i) {
      InjectiveExtends(templates, i, k);
    }
  }

  lemma OneMoreRecurring(db: Db, made: map<Id, Id>, now: int, recurring: map<Id, Recurring>, i: Id, r: Id)
    requires AllHaveRecurrence(db) && made.Keys <= Unbacked(db) && RecurringMade(db, made, now, recurring)
    requires i in Unbacked(db) && i !in made && r !in recurring
    ensures RecurringMade(db, made[i := r], now, recurring[r := RowOf(db.services[i], now)])
  {
    RangeExtends(made, i, r);
    forall j | j in made ensures made[j] != r {
      assert made[j] in Range(made);
    }
  }

  lemma OneMoreItem(db: Db, made: map<Id, Id>, templates: map<Id, Id>, items: map<Id, TemplateItem>, i: Id, r: Id, k: Id)
    requires templates.Keys <= made.Keys && (forall j | j in templates :: HasProduct(db, j))
    requires ItemsMade(db, made, templates, items) && i !in made && k !in items
    ensures if HasProduct(db, i) then ItemsMade(db, made[i := r], templates[i := k], items[k := ItemOf(db, i, r)])
            else ItemsMade(db, made[i := r], templates, items)
  {
    if HasProduct(db, i) {
      RangeExtends(templates, i, k);
      forall j | j in templates ensures templates[j] != k {
        assert templates[j] in Range(templates);
      }
    }
  }
}
