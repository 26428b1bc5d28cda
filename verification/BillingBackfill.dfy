/**
 The cents and status backfill (alembic/versions/c1b_backfill_billing_rework_backfill.py), while the
 old backend keeps writing between its batches.
 */
module BillingBackfill {
  import opened Common
  import opened Batching

  datatype PaymentStatus = PENDING | PARTIAL | PAID | REFUNDED
  datatype OrderType = ONE_SHOT | RECURRING | INSTALLATION

  datatype Order = Order(company: Id, total: real, cents: Option<int>, paid: bool, payment: PaymentStatus, kind: OrderType,
                         recurring: Option<Id>, service: Option<Id>, created: int, paidOn: Option<int>)
  datatype Invoice = Invoice(order: Id, total: real, tax: real, created: int, valid: bool,
                             subtotalCents: Option<int>, taxCents: Option<int>, totalCents: Option<int>)
  datatype Product = Product(name: string, price: real, cents: Option<int>)
  datatype Plan = Plan(price: real, cents: Option<int>)
  datatype Stock = Stock(cost: Option<real>, cents: Option<int>)
  datatype Item = Item(product: Option<Id>, unitCents: Option<int>, name: Option<string>)
  datatype Service = Service(recurring: Option<Id>)

  datatype Db = Db(orders: Table<Order>, invoices: Table<Invoice>, products: Table<Product>, plans: Table<Plan>,
                   stock: Table<Stock>, items: Table<Item>, services: Table<Service>)

  /* ---------- Money ---------- */

  /** ROUND of a numeric: halves go away from zero. */
  function Round(x: real): int {
    if x >= 0.0 then (x + 0.5).Floor else -((0.5 - x).Floor)
  }

  function Cents(amount: real): int {
    Round(amount * 100.0)
  }

  lemma CentsIsClose(amount: real)
    ensures -0.005 <= Cents(amount) as real / 100.0 - amount <= 0.005
    ensures amount >= 0.0 ==> Cents(amount) >= 0
  {
    var c := Cents(amount) as real;
    assert amount * 100.0 - 0.5 <= c <= amount * 100.0 + 0.5;
  }

  /* ---------- The blocks: what each selects and what it sets ---------- */

  predicate OrderLacksCents(i: Id, o: Order) { o.cents.None? }
  function SetOrderCents(i: Id, o: Order): Order { o.(cents := Some(Cents(o.total))) }

  predicate InvoiceLacksCents(i: Id, v: Invoice) { v.totalCents.None? }
  function SetInvoiceCents(i: Id, v: Invoice): Invoice {
    v.(taxCents := Some(Cents(v.tax)), totalCents := Some(Cents(v.total)), subtotalCents := Some(Cents(v.total) - Cents(v.tax)))
  }

  predicate ProductLacksCents(i: Id, p: Product) { p.cents.None? }
  function SetProductCents(i: Id, p: Product): Product { p.(cents := Some(Cents(p.price))) }

  predicate PlanLacksCents(i: Id, p: Plan) { p.cents.None? }
  function SetPlanCents(i: Id, p: Plan): Plan { p.(cents := Some(Cents(p.price))) }

  predicate StockLacksCents(i: Id, s: Stock) { s.cents.None? && s.cost.Some? }
  function SetStockCents(i: Id, s: Stock): Stock {
    if s.cost.Some? then s.(cents := Some(Cents(s.cost.value))) else s
  }

  function ItemLacksSnapshot(products: Table<Product>): (Id, Item) -> bool {
    (i: Id, t: Item) => t.unitCents.None? && t.product.Some? && t.product.value in products
  }

  function SetSnapshot(products: Table<Product>): (Id, Item) -> Item {
    (i: Id, t: Item) =>
      if t.product.Some? && t.product.value in products then
        t.(unitCents := Some(Cents(products[t.product.value].price)), name := Some(products[t.product.value].name))
      else t
  }

  predicate PaidNotMarked(i: Id, o: Order) { o.paid && o.payment != PAID }
  function MarkPaid(i: Id, o: Order): Order { o.(payment := PAID) }

  predicate UnpaidButMarked(i: Id, o: Order) { !o.paid && o.payment == PAID }
  function MarkPending(i: Id, o: Order): Order { o.(payment := PENDING) }

  predicate RecurringNotMarked(i: Id, o: Order) { o.recurring.Some? && o.kind != RECURRING }
  function MarkRecurring(i: Id, o: Order): Order { o.(kind := RECURRING) }

  /** `i` is the only service of its recurring order. */
  predicate IsOnlyService(services: Table<Service>, i: Id)
    requires i in services
  {
    services[i].recurring.Some? && forall j :: j in services && services[j].recurring == services[i].recurring ==> j == i
  }

  /** Recurring orders with exactly one service, and that service. */
  function Bridge(services: Table<Service>): map<Id, Id> {
    map i | i in services && IsOnlyService(services, i) :: services[i].recurring.value := i
  }

  /** The bridge links a recurring order exactly when one service points at it, and to that service. */
  lemma BridgeIff(services: Table<Service>, r: Id, i: Id)
    ensures (r in Bridge(services) && Bridge(services)[r] == i) <==>
            i in services && services[i].recurring == Some(r) && forall j | j in services && j != i :: services[j].recurring != Some(r)
  {
    if i in services && services[i].recurring == Some(r) && forall j | j in services && j != i :: services[j].recurring != Some(r) {
      assert IsOnlyService(services, i);
    }
  }

  function LacksService(bridge: map<Id, Id>): (Id, Order) -> bool {
    (i: Id, o: Order) => o.service.None? && o.recurring.Some? && o.recurring.value in bridge
  }

  function SetService(bridge: map<Id, Id>): (Id, Order) -> Order {
    (i: Id, o: Order) =>
      if o.recurring.Some? && o.recurring.value in bridge then o.(service := Some(bridge[o.recurring.value])) else o
  }

  /** The order of ROW_NUMBER: latest first, ties broken by id. */
  predicate Newer(v: Table<Invoice>, i: Id, j: Id)
    requires i in v && j in v
  {
    Later(v[i].created, i, v[j].created, j)
  }

  /** Row number 1 among the valid invoices of its order. */
  predicate IsNewest(v: Table<Invoice>, i: Id)
    requires i in v
  {
    v[i].valid && forall j :: j in v && v[j].valid && v[j].order == v[i].order && j != i ==> Newer(v, i, j)
  }

  /** For each order with a valid invoice, when the latest one was made. */
  function LatestInvoice(v: Table<Invoice>): map<Id, int> {
    map i | i in v && IsNewest(v, i) :: v[i].order := v[i].created
  }

  predicate PaidWithoutDate(i: Id, o: Order) { o.paid && o.paidOn.None? }

  function SetPaidOn(latest: map<Id, int>): (Id, Order) -> Order {
    (i: Id, o: Order) => o.(paidOn := Some(if i in latest then latest[i] else o.created))
  }

  /* ---------- Duplicate valid invoices ---------- */

  /** Rows with row number above 1. */
  function Duplicates(v: Table<Invoice>): set<Id> {
    set i | i in v && v[i].valid && !IsNewest(v, i)
  }

  function Invalidated(v: Table<Invoice>, ids: set<Id>): Table<Invoice> {
    map i | i in v :: if i in ids then v[i].(valid := false) else v[i]
  }

  /** Every valid invoice is the newest of its order or has the newest above it. */
  lemma NewestAbove(v: Table<Invoice>, i: Id) returns (top: Id)
    requires i in v && v[i].valid
    ensures top in v && IsNewest(v, top) && v[top].order == v[i].order && (top == i || Newer(v, top, i))
    decreases set k | k in v && Newer(v, k, i)
  {
    if IsNewest(v, i) {
      return i;
    }
    var j :| j in v && v[j].valid && v[j].order == v[i].order && j != i && !Newer(v, i, j);
    assert Newer(v, j, i);
    var above, aboveJ := set k | k in v && Newer(v, k, i), set k | k in v && Newer(v, k, j);
    assert j in above && j !in aboveJ && aboveJ <= above;
    top := NewestAbove(v, j);
  }

  /** A batch recomputes the ranks, yet it only takes its own rows out of the duplicates. */
  lemma DuplicatesShrink(v: Table<Invoice>, gone: set<Id>)
    requires gone <= Duplicates(v)
    ensures Duplicates(Invalidated(v, gone)) == Duplicates(v) - gone
  {
    var w := Invalidated(v, gone);
    forall i | i in v && i !in gone ensures v[i].valid && IsNewest(v, i) <==> w[i].valid && IsNewest(w, i) {
      if v[i].valid && !IsNewest(v, i) {
        var top := NewestAbove(v, i);
        assert top !in Duplicates(v) && w[top].valid && Newer(w, top, i);
        assert !IsNewest(w, i);
      }
    }
  }

  lemma InvalidatedTwice(v: Table<Invoice>, gone: set<Id>, chosen: set<Id>)
    ensures Invalidated(Invalidated(v, gone), chosen) == Invalidated(v, gone + chosen)
  {
  }

  lemma TakeAway(all: set<Id>, gone: set<Id>, chosen: set<Id>)
    requires gone <= all && chosen <= all - gone
    ensures gone + chosen <= all && |gone + chosen| == |gone| + |chosen|
    ensures all - (gone + chosen) == all - gone - chosen
    ensures |all - gone - chosen| == |all - gone| - |chosen|
    ensures |all - gone - chosen| == 0 ==> gone + chosen == all
  {
    assert gone !! chosen;
    assert all - gone == chosen + (all - gone - chosen);
    if |all - gone - chosen| == 0 {
      assert all - (gone + chosen) == {};
    }
  }

  /** One batch of the dedup: ranks are recomputed, LIMIT picks, the picked rows are invalidated. */
  method DedupBatch(v: Table<Invoice>, batch: nat, ghost v0: Table<Invoice>, ghost gone: set<Id>)
    returns (v': Table<Invoice>, n: nat, ghost chosen: set<Id>)
    requires gone <= Duplicates(v0) && v == Invalidated(v0, gone)
    ensures chosen <= Duplicates(v0) - gone && |chosen| == n == Smaller(batch, |Duplicates(v0) - gone|)
    ensures v' == Invalidated(v0, gone + chosen)
  {
    DuplicatesShrink(v0, gone);
    var picked := Limit(Duplicates(v), batch);
    InvalidatedTwice(v0, gone, picked);
    v', n, chosen := Invalidated(v, picked), |picked|, picked;
  }

  /** The batched dedup: for every batch size and choice, all duplicates go, in one sweep's effect. */
  method DedupBatched(v: Table<Invoice>, batch: nat) returns (v': Table<Invoice>, total: nat)
    requires batch >= 1
    ensures v' == Invalidated(v, Duplicates(v)) && total == |Duplicates(v)|
  {
    v', total := v, 0;
    ghost var all, gone: set<Id> := Duplicates(v), {};
    assert Invalidated(v, {}) == v;
    while true
      invariant gone <= all == Duplicates(v) && v' == Invalidated(v, gone) && total == |gone|
      decreases |all - gone|
    {
      var n: nat;
      ghost var chosen;
      v', n, chosen := DedupBatch(v', batch, v, gone);
      TakeAway(all, gone, chosen);
      total, gone := total + n, gone + chosen;
      if n < batch {
        return;
      }
    }
  }

  /** A valid invoice stays valid exactly when it is the newest of its order. */
  lemma NewestSurvivesAlone(v: Table<Invoice>, i: Id)
    requires i in v
    ensures var w := Invalidated(v, Duplicates(v)); w[i].valid <==> v[i].valid && IsNewest(v, i)
  {
  }

  /** An order with valid invoices keeps exactly one of them, newer than all the others. */
  lemma OneInvoiceSurvives(v: Table<Invoice>, i: Id) returns (top: Id)
    requires i in v && v[i].valid
    ensures top in v && v[top].order == v[i].order
    ensures var w := Invalidated(v, Duplicates(v));
            && w[top].valid
            && (forall j | j in w && w[j].valid && w[j].order == v[i].order :: j == top)
            && (forall j | j in v && v[j].valid && v[j].order == v[i].order && j != top :: Newer(v, top, j))
  {
    top := NewestAbove(v, i);
    forall j | j in v && v[j].valid && IsNewest(v, j) && v[j].order == v[i].order ensures j == top {
      assert j != top ==> Newer(v, top, j) && Newer(v, j, top);
    }
  }

  /* ---------- The whole pass ---------- */

  function FilledOrders(orders: Table<Order>): Table<Order> {
    OneShot(orders, OrderLacksCents, SetOrderCents)
  }

  function MarkedOrders(orders: Table<Order>): Table<Order> {
    OneShot(OneShot(OneShot(orders, PaidNotMarked, MarkPaid), UnpaidButMarked, MarkPending), RecurringNotMarked, MarkRecurring)
  }

  function LinkedOrders(orders: Table<Order>, bridge: map<Id, Id>, latest: map<Id, int>): Table<Order> {
    OneShot(OneShot(orders, LacksService(bridge), SetService(bridge)), PaidWithoutDate, SetPaidOn(latest))
  }

  /** The blocks that fill the cents columns. */
  function MoneyFilled(db: Db): Db {
    var products := OneShot(db.products, ProductLacksCents, SetProductCents);
    Db(FilledOrders(db.orders),
       OneShot(db.invoices, InvoiceLacksCents, SetInvoiceCents),
       products,
       OneShot(db.plans, PlanLacksCents, SetPlanCents),
       OneShot(db.stock, StockLacksCents, SetStockCents),
       OneShot(db.items, ItemLacksSnapshot(products), SetSnapshot(products)),
       db.services)
  }

  /** One uninterrupted pass of the migration. */
  function Backfilled(db: Db): Db {
    Finished(MoneyFilled(db))
  }

  /** The blocks behind the cents. */
  function Finished(filled: Db): Db {
    filled.(orders := LinkedOrders(MarkedOrders(filled.orders), Bridge(filled.services), LatestInvoice(filled.invoices)),
            invoices := Invalidated(filled.invoices, Duplicates(filled.invoices)))
  }

  /* ---------- The checks at the end of the migration ---------- */

  ghost predicate Exist(orders: Table<Order>, ids: seq<Id>) {
    forall k | 0 <= k < |ids| :: ids[k] in orders
  }

  ghost predicate HaveCents(orders: Table<Order>, ids: seq<Id>) {
    forall k | 0 <= k < |ids| :: ids[k] in orders && orders[ids[k]].cents.Some?
  }

  ghost function SumCents(orders: Table<Order>, ids: seq<Id>): int
    requires HaveCents(orders, ids)
  {
    if ids == [] then 0 else orders[ids[0]].cents.value + SumCents(orders, ids[1..])
  }

  ghost function SumTotal(orders: Table<Order>, ids: seq<Id>): real
    requires Exist(orders, ids)
  {
    if ids == [] then 0.0 else orders[ids[0]].total + SumTotal(orders, ids[1..])
  }

  /** The two sums over some orders stay within a cent for each order. */
  ghost predicate WithinTolerance(orders: Table<Order>, ids: seq<Id>)
    requires HaveCents(orders, ids)
  {
    -0.01 * |ids| as real <= SumCents(orders, ids) as real / 100.0 - SumTotal(orders, ids) <= 0.01 * |ids| as real
  }

  ghost predicate OrderChecks(db: Db) {
    && (forall i | i in db.orders :: db.orders[i].cents.Some?)
    && (forall i | i in db.orders :: db.orders[i].paid <==> db.orders[i].payment == PAID)
    && (forall i | i in db.orders :: db.orders[i].recurring.Some? <==> db.orders[i].kind == RECURRING)
    && (forall i | i in db.orders && db.orders[i].paid :: db.orders[i].paidOn.Some?)
    && (forall i | i in db.orders && db.orders[i].recurring.Some? && db.orders[i].recurring.value in Bridge(db.services) ::
          db.orders[i].service.Some?)
    && (forall ids | HaveCents(db.orders, ids) :: WithinTolerance(db.orders, ids))
  }

  ghost predicate InvoiceChecks(db: Db) {
    && (forall i | i in db.invoices ::
          var v := db.invoices[i];
          && v.subtotalCents.Some? && v.taxCents.Some? && v.totalCents.Some?
          && v.subtotalCents.value + v.taxCents.value == v.totalCents.value)
    && (forall i, j | i in db.invoices && j in db.invoices && i != j && db.invoices[i].order == db.invoices[j].order ::
          !(db.invoices[i].valid && db.invoices[j].valid))
  }

  ghost predicate CatalogChecks(db: Db) {
    && (forall i | i in db.products :: db.products[i].cents.Some?)
    && (forall i | i in db.plans :: db.plans[i].cents.Some?)
    && (forall i | i in db.stock && db.stock[i].cost.Some? :: db.stock[i].cents.Some?)
    && (forall i | i in db.items && db.items[i].product.Some? && db.items[i].product.value in db.products ::
          db.items[i].unitCents.Some?)
  }

  ghost predicate ChecksHold(db: Db) {
    OrderChecks(db) && InvoiceChecks(db) && CatalogChecks(db)
  }

  /* ---------- What batches and the old backend keep ---------- */

  /** Cents once written are right; nothing but this migration marks an order as recurring. */
  predicate OrderSane(o: Order) {
    (o.cents.Some? ==> o.cents.value == Cents(o.total)) && (o.kind == RECURRING ==> o.recurring.Some?)
  }

  predicate InvoiceSane(v: Invoice) {
    || (v.totalCents.None? && v.taxCents.None? && v.subtotalCents.None?)
    || (v.totalCents.Some? && v.taxCents.Some? && v.subtotalCents.Some? &&
        v.subtotalCents.value + v.taxCents.value == v.totalCents.value)
  }

  ghost predicate OrdersSane(orders: Table<Order>) {
    forall i | i in orders :: OrderSane(orders[i])
  }

  ghost predicate InvoicesSane(invoices: Table<Invoice>) {
    forall i | i in invoices :: InvoiceSane(invoices[i])
  }

  ghost predicate Sane(db: Db) {
    OrdersSane(db.orders) && InvoicesSane(db.invoices)
  }

  datatype OrderBlock = FillOrder | PayOrder | UnpayOrder | TypeOrder | LinkOrder | DateOrder
  datatype OtherBlock = FillProduct | FillPlan | FillStock | FillItem

  /** One step of the world: a batch of the migration, or a write of the old backend. */
  datatype Event =
    | OrderBatch(block: OrderBlock, rows: set<Id>)
    | InvoiceBatch(rows: set<Id>)
    | DedupBatch(rows: set<Id>)
    | OtherBatch(other: OtherBlock, rows: set<Id>)
    | NewOrder(id: Id, order: Order)
    | SetPaid(id: Id, paid: bool, paidOn: Option<int>)
    | NewInvoice(id: Id, invoice: Invoice)
    | DropInvoice(id: Id)

  function OrderChange(db: Db, block: OrderBlock): (Id, Order) -> Order {
    match block
    case FillOrder => SetOrderCents
    case PayOrder => MarkPaid
    case UnpayOrder => MarkPending
    case TypeOrder => MarkRecurring
    case LinkOrder => SetService(Bridge(db.services))
    case DateOrder => SetPaidOn(LatestInvoice(db.invoices))
  }

  function OrderWhere(db: Db, block: OrderBlock): (Id, Order) -> bool {
    match block
    case FillOrder => OrderLacksCents
    case PayOrder => PaidNotMarked
    case UnpayOrder => UnpaidButMarked
    case TypeOrder => RecurringNotMarked
    case LinkOrder => LacksService(Bridge(db.services))
    case DateOrder => PaidWithoutDate
  }

  /** Rows the old backend inserts know nothing of the new columns, which take their defaults. */
  predicate Allowed(db: Db, e: Event) {
    match e
    case OrderBatch(block, rows) => rows <= Eligible(db.orders, OrderWhere(db, block))
    case InvoiceBatch(rows) => rows <= Eligible(db.invoices, InvoiceLacksCents)
    case DedupBatch(rows) => rows <= Duplicates(db.invoices)
    case OtherBatch(_, _) => true
    case NewOrder(id, o) => id !in db.orders && o.cents.None? && o.payment == PENDING && o.kind == ONE_SHOT && o.service.None?
    case SetPaid(id, _, _) => id in db.orders
    case NewInvoice(id, v) => id !in db.invoices && v.totalCents.None? && v.taxCents.None? && v.subtotalCents.None?
    case DropInvoice(id) => id in db.invoices
  }

  function ApplyOther(db: Db, other: OtherBlock, rows: set<Id>): (after: Db)
    ensures after.orders == db.orders && after.invoices == db.invoices
  {
    match other
    case FillProduct => db.(products := UpdateRows(db.products, rows, SetProductCents))
    case FillPlan => db.(plans := UpdateRows(db.plans, rows, SetPlanCents))
    case FillStock => db.(stock := UpdateRows(db.stock, rows, SetStockCents))
    case FillItem => db.(items := UpdateRows(db.items, rows, SetSnapshot(db.products)))
  }

  function Apply(db: Db, e: Event): Db
    requires Allowed(db, e)
  {
    match e
    case OrderBatch(block, rows) => db.(orders := UpdateRows(db.orders, rows, OrderChange(db, block)))
    case InvoiceBatch(rows) => db.(invoices := UpdateRows(db.invoices, rows, SetInvoiceCents))
    case DedupBatch(rows) => db.(invoices := Invalidated(db.invoices, rows))
    case OtherBatch(other, rows) => ApplyOther(db, other, rows)
    case NewOrder(id, o) => db.(orders := db.orders[id := o])
    case SetPaid(id, paid, paidOn) => db.(orders := db.orders[id := db.orders[id].(paid := paid, paidOn := paidOn)])
    case NewInvoice(id, v) => db.(invoices := db.invoices[id := v])
    case DropInvoice(id) => db.(invoices := db.invoices[id := db.invoices[id].(valid := false)])
  }

  /** A history of such steps from one state to another. */
  ghost predicate History(from: Db, events: seq<Event>, to: Db)
    decreases |events|
  {
    if events == [] then from == to
    else Allowed(from, events[0]) && History(Apply(from, events[0]), events[1..], to)
  }

  lemma StepKeepsSane(db: Db, e: Event)
    requires Sane(db) && Allowed(db, e)
    ensures Sane(Apply(db, e))
  {
    if e.OrderBatch? {
      OrderBatchKeepsSane(db, e.block, e.rows);
    } else {
      OtherStepKeepsOrders(db, e);
      OtherStepKeepsInvoices(db, e);
    }
  }

  lemma OrderBatchKeepsSane(db: Db, block: OrderBlock, rows: set<Id>)
    requires Sane(db) && rows <= Eligible(db.orders, OrderWhere(db, block))
    ensures OrdersSane(UpdateRows(db.orders, rows, OrderChange(db, block)))
  {
    forall i | i in db.orders ensures OrderSane(UpdateRows(db.orders, rows, OrderChange(db, block))[i]) {
      assert OrderSane(db.orders[i]);
      if i in rows {
        assert i in Eligible(db.orders, OrderWhere(db, block));
      }
    }
  }

  lemma OtherStepKeepsOrders(db: Db, e: Event)
    requires Sane(db) && Allowed(db, e) && !e.OrderBatch?
    ensures OrdersSane(Apply(db, e).orders)
  {
    match e
    case NewOrder(id, o) => PutKeepsOrders(db.orders, id, o);
    case SetPaid(id, paid, paidOn) =>
      assert OrderSane(db.orders[id]);
      PutKeepsOrders(db.orders, id, db.orders[id].(paid := paid, paidOn := paidOn));
    case _ =>
  }

  lemma PutKeepsOrders(orders: Table<Order>, id: Id, o: Order)
    requires OrdersSane(orders) && OrderSane(o)
    ensures OrdersSane(orders[id := o])
  {
  }

  lemma OtherStepKeepsInvoices(db: Db, e: Event)
    requires Sane(db) && Allowed(db, e) && !e.OrderBatch?
    ensures InvoicesSane(Apply(db, e).invoices)
  {
    match e
    case InvoiceBatch(rows) => InvoiceBatchKeepsSane(db.invoices, rows);
    case DedupBatch(rows) => InvalidatedKeepsSane(db.invoices, rows);
    case NewInvoice(id, v) => PutKeepsInvoices(db.invoices, id, v);
    case DropInvoice(id) =>
      assert InvoiceSane(db.invoices[id]);
      PutKeepsInvoices(db.invoices, id, db.invoices[id].(valid := false));
    case _ =>
  }

  lemma PutKeepsInvoices(invoices: Table<Invoice>, id: Id, v: Invoice)
    requires InvoicesSane(invoices) && InvoiceSane(v)
    ensures InvoicesSane(invoices[id := v])
  {
  }

  lemma InvalidatedKeepsSane(v: Table<Invoice>, rows: set<Id>)
    requires InvoicesSane(v)
    ensures InvoicesSane(Invalidated(v, rows))
  {
    forall i | i in v ensures InvoiceSane(Invalidated(v, rows)[i]) {
      assert InvoiceSane(v[i]);
    }
  }

  lemma InvoiceBatchKeepsSane(v: Table<Invoice>, rows: set<Id>)
    requires InvoicesSane(v)
    ensures InvoicesSane(UpdateRows(v, rows, SetInvoiceCents))
  {
    forall i | i in v ensures InvoiceSane(UpdateRows(v, rows, SetInvoiceCents)[i]) {
      assert InvoiceSane(v[i]);
    }
  }

  lemma {:induction false} HistoryKeepsSane(from: Db, events: seq<Event>, to: Db)
    requires Sane(from) && History(from, events, to)
    ensures Sane(to)
    decreases |events|
  {
    if events != [] {
      StepKeepsSane(from, events[0]);
      HistoryKeepsSane(Apply(from, events[0]), events[1..], to);
    }
  }

  /** What the old backend writes is there afterwards, and no other row moves. */
  lemma BackendWrites(db: Db, e: Event, i: Id)
    requires Allowed(db, e)
    ensures match e
            case NewOrder(id, o) => var t := Apply(db, e).orders; t.Keys == db.orders.Keys + {id} && t[id] == o
            case SetPaid(id, paid, paidOn) =>
              var t := Apply(db, e).orders;
              t.Keys == db.orders.Keys && t[id].paid == paid && t[id].paidOn == paidOn &&
              db.orders[id] == t[id].(paid := db.orders[id].paid, paidOn := db.orders[id].paidOn)
            case NewInvoice(id, v) => var t := Apply(db, e).invoices; t.Keys == db.invoices.Keys + {id} && t[id] == v
            case DropInvoice(id) =>
              var t := Apply(db, e).invoices;
              t.Keys == db.invoices.Keys && !t[id].valid && db.invoices[id] == t[id].(valid := db.invoices[id].valid)
            case _ => true
    ensures e.NewOrder? || e.SetPaid? ==>
              Apply(db, e).(orders := db.orders) == db && (i in db.orders && i != e.id ==> Apply(db, e).orders[i] == db.orders[i])
    ensures e.NewInvoice? || e.DropInvoice? ==>
              Apply(db, e).(invoices := db.invoices) == db && (i in db.invoices && i != e.id ==> Apply(db, e).invoices[i] == db.invoices[i])
  {
  }

  lemma {:induction false} HistoryAppends(from: Db, events: seq<Event>, mid: Db, e: Event, to: Db)
    requires History(from, events, mid) && Allowed(mid, e) && Apply(mid, e) == to
    ensures History(from, events + [e], to)
    decreases |events|
  {
    if events == [] {
      assert events + [e] == [e] && [e][1..] == [];
    } else {
      HistoryAppends(Apply(from, events[0]), events[1..], mid, e, to);
      assert (events + [e])[0] == events[0] && (events + [e])[1..] == events[1..] + [e];
    }
  }

  /** A batch of everything that is selected is the one-shot statement. */
  lemma BatchIsOneShot<R>(t: Table<R>, where: (Id, R) -> bool, change: (Id, R) -> R)
    ensures UpdateRows(t, Eligible(t, where), change) == OneShot(t, where, change)
  {
    assert forall i | i in t :: i in Eligible(t, where) <==> where(i, t[i]);
  }

  /** The state after one more block of the pass, as a history. */
  lemma OneMoreBlock(from: Db, events: seq<Event>, mid: Db, e: Event, to: Db) returns (more: seq<Event>)
    requires History(from, events, mid) && Allowed(mid, e) && Apply(mid, e) == to
    ensures History(from, more, to)
  {
    more := events + [e];
    HistoryAppends(from, events, mid, e, to);
  }

  lemma MoneyIsHistory(db: Db) returns (events: seq<Event>)
    ensures History(db, events, MoneyFilled(db))
  {
    events := [];
    var one := db.(orders := FilledOrders(db.orders));
    BatchIsOneShot(db.orders, OrderLacksCents, SetOrderCents);
    events := OneMoreBlock(db, events, db, OrderBatch(FillOrder, Eligible(db.orders, OrderLacksCents)), one);
    var two := one.(invoices := OneShot(db.invoices, InvoiceLacksCents, SetInvoiceCents));
    BatchIsOneShot(db.invoices, InvoiceLacksCents, SetInvoiceCents);
    events := OneMoreBlock(db, events, one, InvoiceBatch(Eligible(db.invoices, InvoiceLacksCents)), two);
    events := CatalogIsHistory(db, events, two);
    assert MoneyFilled(db) == two.(products := MoneyFilled(db).products, plans := MoneyFilled(db).plans,
                                   stock := MoneyFilled(db).stock, items := MoneyFilled(db).items);
  }

  lemma CatalogIsHistory(from: Db, before: seq<Event>, db: Db) returns (events: seq<Event>)
    requires History(from, before, db)
    ensures var m := MoneyFilled(db);
            History(from, events, db.(products := m.products, plans := m.plans, stock := m.stock, items := m.items))
  {
    var m := MoneyFilled(db);
    BatchIsOneShot(db.products, ProductLacksCents, SetProductCents);
    BatchIsOneShot(db.plans, PlanLacksCents, SetPlanCents);
    BatchIsOneShot(db.stock, StockLacksCents, SetStockCents);
    BatchIsOneShot(db.items, ItemLacksSnapshot(m.products), SetSnapshot(m.products));
    var one := db.(products := m.products);
    events := OneMoreBlock(from, before, db, OtherBatch(FillProduct, Eligible(db.products, ProductLacksCents)), one);
    var two := one.(plans := m.plans);
    events := OneMoreBlock(from, events, one, OtherBatch(FillPlan, Eligible(db.plans, PlanLacksCents)), two);
    var three := two.(stock := m.stock);
    events := OneMoreBlock(from, events, two, OtherBatch(FillStock, Eligible(db.stock, StockLacksCents)), three);
    var four := three.(items := m.items);
    events := OneMoreBlock(from, events, three, OtherBatch(FillItem, Eligible(db.items, ItemLacksSnapshot(m.products))), four);
  }

  lemma OrderBlockIsHistory(from: Db, before: seq<Event>, db: Db, block: OrderBlock) returns (events: seq<Event>)
    requires History(from, before, db)
    ensures History(from, events, db.(orders := OneShot(db.orders, OrderWhere(db, block), OrderChange(db, block))))
  {
    BatchIsOneShot(db.orders, OrderWhere(db, block), OrderChange(db, block));
    events := OneMoreBlock(from, before, db, OrderBatch(block, Eligible(db.orders, OrderWhere(db, block))),
                           db.(orders := OneShot(db.orders, OrderWhere(db, block), OrderChange(db, block))));
  }

  lemma FinishIsHistory(from: Db, before: seq<Event>, db: Db) returns (events: seq<Event>)
    requires History(from, before, db)
    ensures History(from, events, Finished(db))
  {
    var pay := db.(orders := OneShot(db.orders, PaidNotMarked, MarkPaid));
    var unpay := pay.(orders := OneShot(pay.orders, UnpaidButMarked, MarkPending));
    var typed := unpay.(orders := OneShot(unpay.orders, RecurringNotMarked, MarkRecurring));
    events := PayIsHistory(from, before, db);
    events := UnpayIsHistory(from, events, pay);
    events := TypeIsHistory(from, events, unpay);
    events := LinksAreHistory(from, events, typed);
  }

  lemma PayIsHistory(from: Db, before: seq<Event>, db: Db) returns (events: seq<Event>)
    requires History(from, before, db)
    ensures History(from, events, db.(orders := OneShot(db.orders, PaidNotMarked, MarkPaid)))
  {
    events := OrderBlockIsHistory(from, before, db, PayOrder);
  }

  lemma UnpayIsHistory(from: Db, before: seq<Event>, db: Db) returns (events: seq<Event>)
    requires History(from, before, db)
    ensures History(from, events, db.(orders := OneShot(db.orders, UnpaidButMarked, MarkPending)))
  {
    events := OrderBlockIsHistory(from, before, db, UnpayOrder);
  }

  lemma TypeIsHistory(from: Db, before: seq<Event>, db: Db) returns (events: seq<Event>)
    requires History(from, before, db)
    ensures History(from, events, db.(orders := OneShot(db.orders, RecurringNotMarked, MarkRecurring)))
  {
    events := OrderBlockIsHistory(from, before, db, TypeOrder);
  }

  lemma LinksAreHistory(from: Db, before: seq<Event>, db: Db) returns (events: seq<Event>)
    requires History(from, before, db)
    ensures History(from, events, db.(orders := LinkedOrders(db.orders, Bridge(db.services), LatestInvoice(db.invoices)),
                                      invoices := Invalidated(db.invoices, Duplicates(db.invoices))))
  {
    var linked := OneShot(db.orders, LacksService(Bridge(db.services)), SetService(Bridge(db.services)));
    events := LinkIsHistory(from, before, db);
    events := DateIsHistory(from, events, db.(orders := linked));
    events := DedupIsHistory(from, events, db.(orders := LinkedOrders(db.orders, Bridge(db.services), LatestInvoice(db.invoices))));
  }

  lemma LinkIsHistory(from: Db, before: seq<Event>, db: Db) returns (events: seq<Event>)
    requires History(from, before, db)
    ensures History(from, events, db.(orders := OneShot(db.orders, LacksService(Bridge(db.services)), SetService(Bridge(db.services)))))
  {
    events := OrderBlockIsHistory(from, before, db, LinkOrder);
  }

  lemma DateIsHistory(from: Db, before: seq<Event>, db: Db) returns (events: seq<Event>)
    requires History(from, before, db)
    ensures History(from, events, db.(orders := OneShot(db.orders, PaidWithoutDate, SetPaidOn(LatestInvoice(db.invoices)))))
  {
    events := OrderBlockIsHistory(from, before, db, DateOrder);
  }

  lemma DedupIsHistory(from: Db, before: seq<Event>, db: Db) returns (events: seq<Event>)
    requires History(from, before, db)
    ensures History(from, events, db.(invoices := Invalidated(db.invoices, Duplicates(db.invoices))))
  {
    events := OneMoreBlock(from, before, db, Event.DedupBatch(Duplicates(db.invoices)),
                           db.(invoices := Invalidated(db.invoices, Duplicates(db.invoices))));
  }

  /** The pass itself is such a history: one batch of all selected rows for each block. */
  lemma PassIsHistory(db: Db) returns (events: seq<Event>)
    ensures History(db, events, Backfilled(db))
  {
    events := MoneyIsHistory(db);
    events := FinishIsHistory(db, events, MoneyFilled(db));
  }

  /* ---------- Self-stabilisation ---------- */

  lemma {:induction false} ToleranceHolds(orders: Table<Order>, ids: seq<Id>)
    requires forall k | 0 <= k < |ids| :: ids[k] in orders && orders[ids[k]].cents == Some(Cents(orders[ids[k]].total))
    ensures WithinTolerance(orders, ids)
    ensures -0.005 * |ids| as real <= SumCents(orders, ids) as real / 100.0 - SumTotal(orders, ids) <= 0.005 * |ids| as real
    decreases |ids|
  {
    if ids != [] {
      CentsIsClose(orders[ids[0]].total);
      ToleranceHolds(orders, ids[1..]);
    }
  }

  lemma FilledOrder(orders: Table<Order>, i: Id)
    requires i in orders
    ensures FilledOrders(orders)[i] ==
            orders[i].(cents := if orders[i].cents.Some? then orders[i].cents else Some(Cents(orders[i].total)))
  {
  }

  lemma MarkedOrder(orders: Table<Order>, i: Id)
    requires i in orders
    ensures var o := orders[i];
            MarkedOrders(orders)[i] == o.(payment := if o.paid then PAID else if o.payment == PAID then PENDING else o.payment,
                                          kind := if o.recurring.Some? then RECURRING else o.kind)
  {
  }

  lemma LinkedOrder(orders: Table<Order>, bridge: map<Id, Id>, latest: map<Id, int>, i: Id)
    requires i in orders
    ensures var o := orders[i];
            LinkedOrders(orders, bridge, latest)[i] ==
            o.(service := if o.service.None? && o.recurring.Some? && o.recurring.value in bridge then Some(bridge[o.recurring.value])
                          else o.service,
               paidOn := if o.paid && o.paidOn.None? then Some(if i in latest then latest[i] else o.created) else o.paidOn)
  {
  }

  predicate IsValidFor(v: Table<Invoice>, i: Id, order: Id) {
    i in v && v[i].valid && v[i].order == order
  }

  /** The last of the valid invoices of `order` was made at `t`. */
  ghost predicate LastInvoicedAt(v: Table<Invoice>, order: Id, t: int) {
    && (exists i :: IsValidFor(v, i, order) && v[i].created == t)
    && (forall i | IsValidFor(v, i, order) :: v[i].created <= t)
  }

  /** Taking the row of rank 1 is taking the maximum. */
  lemma LatestInvoiceIsMaximum(v: Table<Invoice>, order: Id)
    ensures order in LatestInvoice(v) <==> exists i :: IsValidFor(v, i, order)
    ensures order in LatestInvoice(v) ==> LastInvoicedAt(v, order, LatestInvoice(v)[order])
  {
    if i :| IsValidFor(v, i, order) {
      var top := NewestAbove(v, i);
      assert IsNewest(v, top) && v[top].order == order;
    }
    if order in LatestInvoice(v) {
      var top :| top in v && IsNewest(v, top) && v[top].order == order && LatestInvoice(v)[order] == v[top].created;
      assert IsValidFor(v, top, order);
      forall i | IsValidFor(v, i, order) ensures v[i].created <= v[top].created {
        assert i != top ==> Newer(v, top, i);
      }
    }
  }

  /** COALESCE of the last valid invoice and the order's own date. */
  ghost predicate IsPaymentDate(v: Table<Invoice>, order: Id, created: int, t: int) {
    if exists i :: IsValidFor(v, i, order) then LastInvoicedAt(v, order, t) else t == created
  }

  lemma LatestIsPaymentDate(v: Table<Invoice>, order: Id, created: int)
    ensures var latest := LatestInvoice(OneShot(v, InvoiceLacksCents, SetInvoiceCents));
            IsPaymentDate(v, order, created, if order in latest then latest[order] else created)
  {
    var filled := OneShot(v, InvoiceLacksCents, SetInvoiceCents);
    LatestInvoiceIsMaximum(filled, order);
    SameLastInvoice(v, filled, order, created);
  }

  lemma SameLastInvoice(v: Table<Invoice>, w: Table<Invoice>, order: Id, created: int)
    requires w.Keys == v.Keys
    requires forall i | i in v :: w[i].valid == v[i].valid && w[i].order == v[i].order && w[i].created == v[i].created
    ensures (exists i :: IsValidFor(w, i, order)) <==> (exists i :: IsValidFor(v, i, order))
    ensures forall t :: LastInvoicedAt(w, order, t) <==> LastInvoicedAt(v, order, t)
  {
    assert forall i :: IsValidFor(w, i, order) <==> IsValidFor(v, i, order);
  }

  /** What the pass makes of one order, in any database. */
  lemma BackfilledOrder(db: Db, i: Id)
    requires i in db.orders
    ensures i in Backfilled(db).orders
    ensures var o, o' := db.orders[i], Backfilled(db).orders[i];
            && o'.cents == (if o.cents.Some? then o.cents else Some(Cents(o.total))) && o'.total == o.total
            && o'.paid == o.paid && (o'.paid <==> o'.payment == PAID)
            && o'.recurring == o.recurring && (o'.kind == RECURRING <==> o.recurring.Some? || o.kind == RECURRING)
            && (!o.paid || o.paidOn.Some? ==> o'.paidOn == o.paidOn)
            && (o.paid && o.paidOn.None? ==> o'.paidOn.Some? && IsPaymentDate(db.invoices, i, o.created, o'.paidOn.value))
            && (o.service.Some? || o.recurring.None? || o.recurring.value !in Bridge(db.services) ==> o'.service == o.service)
            && (o.service.None? && o.recurring.Some? && o.recurring.value in Bridge(db.services) ==>
                  o'.service == Some(Bridge(db.services)[o.recurring.value]))
  {
    var filled := FilledOrders(db.orders);
    var marked := MarkedOrders(filled);
    FilledOrder(db.orders, i);
    MarkedOrder(filled, i);
    LinkedOrder(marked, Bridge(db.services), LatestInvoice(OneShot(db.invoices, InvoiceLacksCents, SetInvoiceCents)), i);
    LatestIsPaymentDate(db.invoices, i, db.orders[i].created);
  }

  /** `c` cents are nearest to `amount`; of two, the one further from zero. */
  predicate IsRounded(c: int, amount: real) {
    var x := amount * 100.0;
    -0.5 <= c as real - x <= 0.5 && (c as real == x + 0.5 ==> x > 0.0) && (c as real == x - 0.5 ==> x < 0.0)
  }

  lemma CentsAreRounded(amount: real)
    ensures IsRounded(Cents(amount), amount)
  {
    CentsIsClose(amount);
  }

  /** What the pass makes of one invoice, in any database: each amount from its own column, the subtotal as their difference. */
  lemma BackfilledInvoice(db: Db, i: Id)
    requires i in db.invoices
    ensures i in Backfilled(db).invoices
    ensures var v, w := db.invoices[i], Backfilled(db).invoices[i];
            && (v.totalCents.Some? ==> w.subtotalCents == v.subtotalCents && w.taxCents == v.taxCents && w.totalCents == v.totalCents)
            && (v.totalCents.None? ==>
                  && w.totalCents.Some? && IsRounded(w.totalCents.value, v.total)
                  && w.taxCents.Some? && IsRounded(w.taxCents.value, v.tax)
                  && w.subtotalCents == Some(w.totalCents.value - w.taxCents.value))
            && w.order == v.order && w.total == v.total && w.tax == v.tax && w.created == v.created
            && (w.valid <==> v.valid && IsLastOf(db.invoices, i))
  {
    var v := db.invoices[i];
    CentsAreRounded(v.total);
    CentsAreRounded(v.tax);
    var filled := OneShot(db.invoices, InvoiceLacksCents, SetInvoiceCents);
    NewestSurvivesAlone(filled, i);
    SameNewest(db.invoices, filled, i);
  }

  /** No other valid invoice of its order comes before `i` in the ranking. */
  ghost predicate IsLastOf(v: Table<Invoice>, i: Id)
    requires i in v
  {
    forall j | IsValidFor(v, j, v[i].order) && j != i :: Later(v[i].created, i, v[j].created, j)
  }

  lemma SameNewest(v: Table<Invoice>, w: Table<Invoice>, i: Id)
    requires i in v && w.Keys == v.Keys
    requires forall j | j in v :: w[j].valid == v[j].valid && w[j].order == v[j].order && w[j].created == v[j].created
    ensures IsNewest(w, i) <==> v[i].valid && IsLastOf(v, i)
  {
  }

  /** What the pass makes of prices: a missing one is rounded from its own row, one that is there stays. */
  lemma BackfilledPrices(db: Db, i: Id)
    ensures i in db.products ==>
              i in Backfilled(db).products &&
              var p, q := db.products[i], Backfilled(db).products[i];
              && q.cents.Some? && (if p.cents.Some? then q.cents == p.cents else IsRounded(q.cents.value, p.price))
              && q.name == p.name && q.price == p.price
    ensures i in db.plans ==>
              i in Backfilled(db).plans &&
              var p, q := db.plans[i], Backfilled(db).plans[i];
              q.cents.Some? && (if p.cents.Some? then q.cents == p.cents else IsRounded(q.cents.value, p.price)) && q.price == p.price
    ensures i in db.stock ==>
              i in Backfilled(db).stock &&
              var p, q := db.stock[i], Backfilled(db).stock[i];
              && q.cost == p.cost
              && (if p.cents.None? && p.cost.Some? then q.cents.Some? && IsRounded(q.cents.value, p.cost.value) else q.cents == p.cents)
  {
    if i in db.products {
      CentsAreRounded(db.products[i].price);
    }
    if i in db.plans {
      CentsAreRounded(db.plans[i].price);
    }
    if i in db.stock && db.stock[i].cost.Some? {
      CentsAreRounded(db.stock[i].cost.value);
    }
  }

  /** What the pass makes of an order item: a missing snapshot is taken from its own product, as it is now. */
  lemma BackfilledItem(db: Db, i: Id)
    requires i in db.items
    ensures i in Backfilled(db).items
    ensures var t, u := db.items[i], Backfilled(db).items[i];
            && u.product == t.product
            && if t.unitCents.None? && t.product.Some? && t.product.value in db.products then
                 var p := db.products[t.product.value];
                 u.unitCents.Some? && IsRounded(u.unitCents.value, p.price) && u.name == Some(p.name)
               else u == t
  {
    var t := db.items[i];
    if t.product.Some? && t.product.value in db.products {
      CentsAreRounded(db.products[t.product.value].price);
    }
  }

  lemma BackfilledOrdersPass(db: Db)
    requires Sane(db)
    ensures OrderChecks(Backfilled(db))
  {
    var after := Backfilled(db);
    forall i | i in after.orders
      ensures after.orders[i].cents == Some(Cents(after.orders[i].total))
      ensures after.orders[i].paid <==> after.orders[i].payment == PAID
      ensures after.orders[i].recurring.Some? <==> after.orders[i].kind == RECURRING
      ensures after.orders[i].paid ==> after.orders[i].paidOn.Some?
      ensures after.orders[i].recurring.Some? && after.orders[i].recurring.value in Bridge(after.services) ==>
                after.orders[i].service.Some?
    {
      assert i in db.orders && OrderSane(db.orders[i]);
      BackfilledOrder(db, i);
    }
    forall ids | HaveCents(after.orders, ids) ensures WithinTolerance(after.orders, ids) {
      ToleranceHolds(after.orders, ids);
    }
  }

  predicate InvoiceAdds(v: Invoice) {
    && v.subtotalCents.Some? && v.taxCents.Some? && v.totalCents.Some?
    && v.subtotalCents.value + v.taxCents.value == v.totalCents.value
  }

  lemma FilledInvoicesAdd(db: Db)
    requires Sane(db)
    ensures forall i | i in db.invoices :: InvoiceAdds(OneShot(db.invoices, InvoiceLacksCents, SetInvoiceCents)[i])
  {
    forall i | i in db.invoices ensures InvoiceAdds(OneShot(db.invoices, InvoiceLacksCents, SetInvoiceCents)[i]) {
      assert InvoiceSane(db.invoices[i]);
    }
  }

  lemma BackfilledInvoicesPass(db: Db)
    requires Sane(db)
    ensures InvoiceChecks(Backfilled(db))
  {
    var filled := OneShot(db.invoices, InvoiceLacksCents, SetInvoiceCents);
    var after := Backfilled(db).invoices;
    FilledInvoicesAdd(db);
    forall i, j | i in after && j in after && i != j && after[i].order == after[j].order
      ensures !(after[i].valid && after[j].valid)
    {
      NewestSurvivesAlone(filled, i);
      NewestSurvivesAlone(filled, j);
    }
  }

  lemma BackfilledCatalogPasses(db: Db)
    ensures CatalogChecks(Backfilled(db))
  {
    PricesFilled(db.products, db.plans);
    StockFilled(db.stock);
    ItemsFilled(db.items, Backfilled(db).products);
  }

  lemma PricesFilled(products: Table<Product>, plans: Table<Plan>)
    ensures forall i | i in products :: OneShot(products, ProductLacksCents, SetProductCents)[i].cents.Some?
    ensures forall i | i in plans :: OneShot(plans, PlanLacksCents, SetPlanCents)[i].cents.Some?
  {
  }

  lemma StockFilled(stock: Table<Stock>)
    ensures forall i | i in stock ::
              var s := OneShot(stock, StockLacksCents, SetStockCents)[i]; s.cost == stock[i].cost && (s.cost.Some? ==> s.cents.Some?)
  {
  }

  lemma ItemsFilled(items: Table<Item>, products: Table<Product>)
    ensures forall i | i in items ::
              var t := OneShot(items, ItemLacksSnapshot(products), SetSnapshot(products))[i];
              t.product == items[i].product && (t.product.Some? && t.product.value in products ==> t.unitCents.Some?)
  {
  }

  /** Whatever was interleaved before, one uninterrupted pass makes every check hold. */
  lemma PassAfterAnyHistory(from: Db, events: seq<Event>, to: Db)
    requires Sane(from) && History(from, events, to)
    ensures ChecksHold(Backfilled(to))
  {
    HistoryKeepsSane(from, events, to);
    BackfilledOrdersPass(to);
    BackfilledInvoicesPass(to);
    BackfilledCatalogPasses(to);
  }

  /** A second pass finds nothing to do, whatever the first one found. */
  lemma BackfillIdempotent(db: Db)
    ensures Backfilled(Backfilled(db)) == Backfilled(db)
  {
    var once := Backfilled(db);
    BackfilledOrdersDone(db);
    BackfilledInvoicesDone(db);
    BackfilledCatalogPasses(db);
    InvoicesSettled(once.invoices);
    CatalogSettled(once);
    OrdersSettled(once, LatestInvoice(once.invoices));
  }

  /** No block selects an order. */
  ghost predicate OrdersDone(db: Db) {
    && (forall i | i in db.orders :: db.orders[i].cents.Some?)
    && (forall i | i in db.orders :: db.orders[i].paid <==> db.orders[i].payment == PAID)
    && (forall i | i in db.orders && db.orders[i].recurring.Some? :: db.orders[i].kind == RECURRING)
    && (forall i | i in db.orders && db.orders[i].paid :: db.orders[i].paidOn.Some?)
    && (forall i | i in db.orders && db.orders[i].recurring.Some? && db.orders[i].recurring.value in Bridge(db.services) ::
          db.orders[i].service.Some?)
  }

  /** No block selects an invoice. */
  ghost predicate InvoicesDone(v: Table<Invoice>) {
    && (forall i | i in v :: v[i].totalCents.Some?)
    && (forall i | i in v && v[i].valid :: IsNewest(v, i))
  }

  lemma BackfilledOrdersDone(db: Db)
    ensures OrdersDone(Backfilled(db))
  {
    var after := Backfilled(db).orders;
    forall i | i in after
      ensures after[i].cents.Some? && (after[i].paid <==> after[i].payment == PAID) && (after[i].paid ==> after[i].paidOn.Some?)
      ensures after[i].recurring.Some? ==> after[i].kind == RECURRING
      ensures after[i].recurring.Some? && after[i].recurring.value in Bridge(db.services) ==> after[i].service.Some?
    {
      assert i in db.orders;
      BackfilledOrder(db, i);
    }
  }

  lemma BackfilledInvoicesDone(db: Db)
    ensures InvoicesDone(Backfilled(db).invoices)
  {
    var filled := OneShot(db.invoices, InvoiceLacksCents, SetInvoiceCents);
    DedupIsDone(filled);
  }

  lemma DedupIsDone(v: Table<Invoice>)
    requires forall i | i in v :: v[i].totalCents.Some?
    ensures InvoicesDone(Invalidated(v, Duplicates(v)))
  {
    DuplicatesShrink(v, Duplicates(v));
    var w := Invalidated(v, Duplicates(v));
    forall i | i in w && w[i].valid ensures IsNewest(w, i) {
      assert i !in Duplicates(w);
    }
  }

  lemma InvoicesSettled(v: Table<Invoice>)
    requires InvoicesDone(v)
    ensures OneShot(v, InvoiceLacksCents, SetInvoiceCents) == v
    ensures Invalidated(v, Duplicates(v)) == v
  {
    NothingSelected(v, InvoiceLacksCents, SetInvoiceCents);
    assert Duplicates(v) == {};
  }

  lemma CatalogSettled(db: Db)
    requires CatalogChecks(db)
    ensures OneShot(db.products, ProductLacksCents, SetProductCents) == db.products
    ensures OneShot(db.plans, PlanLacksCents, SetPlanCents) == db.plans
    ensures OneShot(db.stock, StockLacksCents, SetStockCents) == db.stock
    ensures OneShot(db.items, ItemLacksSnapshot(db.products), SetSnapshot(db.products)) == db.items
  {
    NothingSelected(db.products, ProductLacksCents, SetProductCents);
    NothingSelected(db.plans, PlanLacksCents, SetPlanCents);
    NothingSelected(db.stock, StockLacksCents, SetStockCents);
    NothingSelected(db.items, ItemLacksSnapshot(db.products), SetSnapshot(db.products));
  }

  lemma OrdersSettled(db: Db, latest: map<Id, int>)
    requires OrdersDone(db)
    ensures LinkedOrders(MarkedOrders(FilledOrders(db.orders)), Bridge(db.services), latest) == db.orders
  {
    NothingSelected(db.orders, OrderLacksCents, SetOrderCents);
    NothingSelected(db.orders, PaidNotMarked, MarkPaid);
    NothingSelected(db.orders, UnpaidButMarked, MarkPending);
    NothingSelected(db.orders, RecurringNotMarked, MarkRecurring);
    NothingSelected(db.orders, LacksService(Bridge(db.services)), SetService(Bridge(db.services)));
    NothingSelected(db.orders, PaidWithoutDate, SetPaidOn(latest));
  }

  /* ---------- The migration itself ---------- */

  class BillingTables {
    var orders: Table<Order>
    var invoices: Table<Invoice>
    var products: Table<Product>
    var plans: Table<Plan>
    var stock: Table<Stock>
    var items: Table<Item>
    var services: Table<Service>

    function State(): Db
      reads this
    {
      Db(orders, invoices, products, plans, stock, items, services)
    }

    constructor (db: Db)
      ensures State() == db
    {
      orders, invoices, products := db.orders, db.invoices, db.products;
      plans, stock, items, services := db.plans, db.stock, db.items, db.services;
    }

    /** Every block of `upgrade`, in its order, each in batches. */
    method Backfill(batch: nat) returns (deduped: nat)
      requires batch >= 1
      modifies this
      ensures State() == Backfilled(old(State()))
      ensures deduped == |Duplicates(MoneyFilled(old(State())).invoices)|
    {
      FillMoney(batch);
      ghost var filled := State();
      FinishOrders(batch);
      invoices, deduped := DedupBatched(invoices, batch);
      assert State() == Finished(filled);
    }

    method FinishOrders(batch: nat)
      requires batch >= 1
      modifies `orders
      ensures orders == LinkedOrders(MarkedOrders(old(orders)), Bridge(services), LatestInvoice(invoices))
    {
      MarkOrders(batch);
      LinkOrders(batch);
    }

    method FillMoney(batch: nat)
      requires batch >= 1
      modifies this
      ensures State() == MoneyFilled(old(State()))
    {
      var n: nat;
      orders, n := Batched(orders, OrderLacksCents, SetOrderCents, batch);
      invoices, n := Batched(invoices, InvoiceLacksCents, SetInvoiceCents, batch);
      FillCatalog(batch);
      items, n := Batched(items, ItemLacksSnapshot(products), SetSnapshot(products), batch);
    }

    method FillCatalog(batch: nat)
      requires batch >= 1
      modifies `products, `plans, `stock
      ensures products == OneShot(old(products), ProductLacksCents, SetProductCents)
      ensures plans == OneShot(old(plans), PlanLacksCents, SetPlanCents)
      ensures stock == OneShot(old(stock), StockLacksCents, SetStockCents)
    {
      var n: nat;
      products, n := Batched(products, ProductLacksCents, SetProductCents, batch);
      plans, n := Batched(plans, PlanLacksCents, SetPlanCents, batch);
      stock, n := Batched(stock, StockLacksCents, SetStockCents, batch);
    }

    method MarkOrders(batch: nat)
      requires batch >= 1
      modifies `orders
      ensures orders == MarkedOrders(old(orders))
    {
      var n: nat;
      orders, n := Batched(orders, PaidNotMarked, MarkPaid, batch);
      orders, n := Batched(orders, UnpaidButMarked, MarkPending, batch);
      orders, n := Batched(orders, RecurringNotMarked, MarkRecurring, batch);
    }

    method LinkOrders(batch: nat)
      requires batch >= 1
      modifies `orders
      ensures orders == LinkedOrders(old(orders), Bridge(services), LatestInvoice(invoices))
    {
      var bridge := Bridge(services);
      var n: nat;
      orders, n := Batched(orders, LacksService(bridge), SetService(bridge), batch);
      orders, n := Batched(orders, PaidWithoutDate, SetPaidOn(LatestInvoice(invoices)), batch);
    }
  }
}
