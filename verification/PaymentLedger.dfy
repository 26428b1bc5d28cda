/**
 The payment ledger and its legacy rows
 (alembic/versions/c1c_payment_ledger_billing_rework_payment_ledger.py).
 */
module PaymentLedger {
  import opened Common
  import opened Batching
  import opened BillingBackfill

  datatype PaymentKind = PAYMENT | REFUND
  datatype Payment = Payment(order: Id, kind: PaymentKind, amount: int, reference: string, paidAt: int)

  /** The payment table only ever grows. */
  type Ledger = seq<Payment>

  const LEGACY := "LEGACY_BACKFILL"

  predicate HasPayment(ledger: Ledger, order: Id) {
    exists k :: 0 <= k < |ledger| && ledger[k].order == order && ledger[k].kind == PAYMENT
  }

  predicate IsPaidFor(o: Order) {
    o.paid && o.cents.Some? && o.cents.value > 0
  }

  /** The orders the synthesis selects. */
  function Missing(orders: Table<Order>, ledger: Ledger): set<Id> {
    set i | i in orders && IsPaidFor(orders[i]) && !HasPayment(ledger, i)
  }

  function LegacyRow(orders: Table<Order>, i: Id): Payment
    requires i in orders && orders[i].cents.Some?
  {
    var o := orders[i];
    Payment(i, PAYMENT, o.cents.value, LEGACY, if o.paidOn.Some? then o.paidOn.value else o.created)
  }

  /** `rows` are the legacy rows of the orders `ids`, one each. */
  ghost predicate LegacyRowsOf(orders: Table<Order>, ids: set<Id>, rows: seq<Payment>) {
    && (forall k | 0 <= k < |rows| ::
          rows[k].order in ids && rows[k].order in orders && orders[rows[k].order].cents.Some? &&
          rows[k] == LegacyRow(orders, rows[k].order))
    && (forall j, k | 0 <= j < k < |rows| :: rows[j].order != rows[k].order)
    && (forall i | i in ids :: exists k :: 0 <= k < |rows| && rows[k].order == i)
    && |rows| == |ids|
  }

  /** `p` pays order `o` in full, on its payment date or, without one, on the day it was made. */
  predicate Settles(o: Order, p: Payment) {
    && p.kind == PAYMENT && p.reference == "LEGACY_BACKFILL"
    && o.cents == Some(p.amount)
    && (o.paidOn.Some? ==> o.paidOn == Some(p.paidAt))
    && (o.paidOn.None? ==> p.paidAt == o.created)
  }

  /** Each selected order is settled by one row, and no other row is added. */
  lemma LegacyRowsSettle(orders: Table<Order>, ids: set<Id>, rows: seq<Payment>)
    requires LegacyRowsOf(orders, ids, rows)
    ensures forall k | 0 <= k < |rows| :: rows[k].order in ids && rows[k].order in orders && Settles(orders[rows[k].order], rows[k])
    ensures forall i | i in ids :: exists k :: 0 <= k < |rows| && rows[k].order == i && forall j | 0 <= j < |rows| && rows[j].order == i :: j == k
  {
    forall i | i in ids ensures exists k :: 0 <= k < |rows| && rows[k].order == i && forall j | 0 <= j < |rows| && rows[j].order == i :: j == k {
      var k :| 0 <= k < |rows| && rows[k].order == i;
      assert forall j | 0 <= j < |rows| && rows[j].order == i :: j == k;
    }
  }

  /** Selected is what is paid, worth a cent or more, and has no payment. */
  lemma MissingIff(orders: Table<Order>, ledger: Ledger, i: Id)
    ensures i in Missing(orders, ledger) <==>
            && i in orders && orders[i].paid && orders[i].cents.Some? && orders[i].cents.value >= 1
            && forall k | 0 <= k < |ledger| :: ledger[k].order == i ==> ledger[k].kind != PAYMENT
  {
  }

  /** INSERT ... SELECT for the chosen orders, in whatever order they come. */
  method InsertLegacyRows(orders: Table<Order>, ids: set<Id>) returns (rows: seq<Payment>)
    requires forall i | i in ids :: i in orders && orders[i].cents.Some?
    ensures LegacyRowsOf(orders, ids, rows)
  {
    rows := [];
    var left := ids;
    ghost var done: set<Id> := {};
    while left != {}
      invariant done !! left && done + left == ids
      invariant LegacyRowsOf(orders, done, rows)
      decreases |left|
    {
      NonEmpty(left);
      var id :| id in left;
      AddLegacyRow(orders, done, rows, id);
      rows := rows + [LegacyRow(orders, id)];
      left, done := left - {id}, done + {id};
    }
  }

  lemma AddLegacyRow(orders: Table<Order>, ids: set<Id>, rows: seq<Payment>, id: Id)
    requires LegacyRowsOf(orders, ids, rows) && id !in ids && id in orders && orders[id].cents.Some?
    ensures LegacyRowsOf(orders, ids + {id}, rows + [LegacyRow(orders, id)])
  {
    var more := rows + [LegacyRow(orders, id)];
    forall i | i in ids + {id} ensures exists k :: 0 <= k < |more| && more[k].order == i {
      if i == id {
        assert more[|rows|].order == i;
      } else {
        var k :| 0 <= k < |rows| && rows[k].order == i;
        assert more[k].order == i;
      }
    }
  }

  lemma JoinLegacyRows(orders: Table<Order>, a: set<Id>, s: seq<Payment>, b: set<Id>, t: seq<Payment>)
    requires LegacyRowsOf(orders, a, s) && LegacyRowsOf(orders, b, t) && a !! b
    ensures LegacyRowsOf(orders, a + b, s + t)
  {
    var r := s + t;
    forall i | i in a + b ensures exists k :: 0 <= k < |r| && r[k].order == i {
      if i in a {
        var k :| 0 <= k < |s| && s[k].order == i;
        assert r[k].order == i;
      } else {
        var k :| 0 <= k < |t| && t[k].order == i;
        assert r[|s| + k].order == i;
      }
    }
  }

  /** Orders that got a row are no longer missing one; no other order is affected. */
  lemma MissingShrinks(orders: Table<Order>, ledger: Ledger, ids: set<Id>, rows: seq<Payment>)
    requires ids <= Missing(orders, ledger) && LegacyRowsOf(orders, ids, rows)
    ensures Missing(orders, ledger + rows) == Missing(orders, ledger) - ids
  {
    var after := ledger + rows;
    forall i ensures HasPayment(after, i) <==> HasPayment(ledger, i) || i in ids {
      if HasPayment(ledger, i) {
        var k :| 0 <= k < |ledger| && ledger[k].order == i && ledger[k].kind == PAYMENT;
        assert after[k] == ledger[k];
      }
      if i in ids {
        var k :| 0 <= k < |rows| && rows[k].order == i;
        assert after[|ledger| + k] == rows[k];
      }
      if HasPayment(after, i) {
        var k :| 0 <= k < |after| && after[k].order == i && after[k].kind == PAYMENT;
        assert k >= |ledger| ==> after[k] == rows[k - |ledger|];
      }
    }
  }

  /** One INSERT of at most `batch` rows; `done` orders have had theirs, `added`. */
  method InsertBatch(orders: Table<Order>, ledger: Ledger, batch: nat, ghost ledger0: Ledger, ghost done: set<Id>, ghost added: seq<Payment>)
    returns (ledger': Ledger, n: nat, ghost ids: set<Id>, ghost added': seq<Payment>)
    requires done <= Missing(orders, ledger0) && LegacyRowsOf(orders, done, added) && ledger == ledger0 + added
    ensures ids <= Missing(orders, ledger0) - done && |ids| == n == Smaller(batch, |Missing(orders, ledger0) - done|)
    ensures LegacyRowsOf(orders, done + ids, added') && ledger' == ledger0 + added' && |added'| == |added| + n
  {
    MissingShrinks(orders, ledger0, done, added);
    var chosen := Limit(Missing(orders, ledger), batch);
    var rows := InsertLegacyRows(orders, chosen);
    JoinLegacyRows(orders, done, added, chosen, rows);
    AppendTwice(ledger0, added, rows);
    ledger', n, ids, added' := ledger + rows, |rows|, chosen, added + rows;
  }

  lemma AppendTwice(ledger: Ledger, s: seq<Payment>, t: seq<Payment>)
    ensures ledger + s + t == ledger + (s + t)
  {
  }

  lemma AllServed(orders: Table<Order>, ledger: Ledger, rows: seq<Payment>)
    requires LegacyRowsOf(orders, Missing(orders, ledger), rows)
    ensures Missing(orders, ledger + rows) == {}
  {
    MissingShrinks(orders, ledger, Missing(orders, ledger), rows);
  }

  /** `_synthesize_legacy_rows`: in batches, exactly one row for each order that had none. */
  method SynthesizeLegacyRows(orders: Table<Order>, ledger: Ledger, batch: nat)
    returns (ledger': Ledger, total: nat, ghost added: seq<Payment>)
    requires batch >= 1
    ensures ledger' == ledger + added && total == |added|
    ensures LegacyRowsOf(orders, Missing(orders, ledger), added)
    ensures Missing(orders, ledger') == {}
  {
    ghost var all, done: set<Id> := Missing(orders, ledger), {};
    ledger', total, added := ledger, 0, [];
    while true
      invariant done <= all == Missing(orders, ledger)
      invariant ledger' == ledger + added && total == |added|
      invariant LegacyRowsOf(orders, done, added)
      decreases |all - done|
    {
      var n: nat;
      ghost var ids;
      ledger', n, ids, added := InsertBatch(orders, ledger', batch, ledger, done, added);
      TakeAway(all, done, ids);
      total, done := total + n, done + ids;
      if n < batch {
        AllServed(orders, ledger, added);
        return;
      }
    }
  }

  /* ---------- The ledger over any history ---------- */

  /** A legacy row carries the whole total of its order, and no payment of that order precedes it. */
  ghost predicate LedgerSane(orders: Table<Order>, ledger: Ledger) {
    forall k | 0 <= k < |ledger| && ledger[k].reference == LEGACY ::
      && ledger[k].order in orders
      && ledger[k].kind == PAYMENT
      && orders[ledger[k].order].cents == Some(ledger[k].amount)
      && ledger[k].amount > 0
      && !HasPayment(ledger[..k], ledger[k].order)
  }

  /** Never two legacy rows for one order. */
  lemma OneLegacyRowPerOrder(orders: Table<Order>, ledger: Ledger, j: nat, k: nat)
    requires LedgerSane(orders, ledger) && j < |ledger| && k < |ledger|
    requires ledger[j].reference == LEGACY && ledger[k].reference == LEGACY && ledger[j].order == ledger[k].order
    ensures j == k
  {
    if j < k {
      EarlierPayment(ledger, j, k);
    } else if k < j {
      EarlierPayment(ledger, k, j);
    }
  }

  lemma EarlierPayment(ledger: Ledger, j: nat, k: nat)
    requires j < k < |ledger| && ledger[j].kind == PAYMENT
    ensures HasPayment(ledger[..k], ledger[j].order)
  {
    assert ledger[..k][j] == ledger[j];
  }

  /** A batch of the synthesis, a live payment or refund, a new order, or a change of `paid`. */
  datatype LedgerEvent =
    | LegacyBatch(ids: set<Id>, rows: seq<Payment>)
    | Recorded(payment: Payment)
    | Ordered(id: Id, order: Order)
    | PaidFlag(id: Id, paid: bool, paidOn: Option<int>)

  ghost predicate Allowed(orders: Table<Order>, ledger: Ledger, e: LedgerEvent) {
    match e
    case LegacyBatch(ids, rows) => ids <= Missing(orders, ledger) && LegacyRowsOf(orders, ids, rows)
    case Recorded(p) => p.reference != LEGACY
    case Ordered(id, o) => id !in orders
    case PaidFlag(id, _, _) => id in orders
  }

  function OrdersAfter(orders: Table<Order>, e: LedgerEvent): Table<Order> {
    match e
    case Ordered(id, o) => orders[id := o]
    case PaidFlag(id, paid, paidOn) => if id in orders then orders[id := orders[id].(paid := paid, paidOn := paidOn)] else orders
    case _ => orders
  }

  function LedgerAfter(ledger: Ledger, e: LedgerEvent): Ledger {
    match e
    case LegacyBatch(_, rows) => ledger + rows
    case Recorded(p) => ledger + [p]
    case _ => ledger
  }

  lemma AppendKeepsSane(orders: Table<Order>, ledger: Ledger, ids: set<Id>, rows: seq<Payment>)
    requires LedgerSane(orders, ledger) && ids <= Missing(orders, ledger) && LegacyRowsOf(orders, ids, rows)
    ensures LedgerSane(orders, ledger + rows)
  {
    var after := ledger + rows;
    forall k | 0 <= k < |after| && after[k].reference == LEGACY
      ensures after[k].order in orders && after[k].kind == PAYMENT
      ensures orders[after[k].order].cents == Some(after[k].amount) && after[k].amount > 0
      ensures !HasPayment(after[..k], after[k].order)
    {
      if k < |ledger| {
        assert after[..k] == ledger[..k];
      } else {
        var row := rows[k - |ledger|];
        assert row.order in Missing(orders, ledger);
        forall j | 0 <= j < k ensures !(after[..k][j].order == row.order && after[..k][j].kind == PAYMENT) {
          assert after[..k][j] == if j < |ledger| then ledger[j] else rows[j - |ledger|];
        }
      }
    }
  }

  lemma EventKeepsSane(orders: Table<Order>, ledger: Ledger, e: LedgerEvent)
    requires LedgerSane(orders, ledger) && Allowed(orders, ledger, e)
    ensures LedgerSane(OrdersAfter(orders, e), LedgerAfter(ledger, e))
  {
    match e {
      case LegacyBatch(ids, rows) => AppendKeepsSane(orders, ledger, ids, rows);
      case Recorded(p) =>
        var after := ledger + [p];
        assert forall k | 0 <= k < |ledger| :: after[..k] == ledger[..k];
      case _ =>
    }
  }

  ghost predicate History(orders: Table<Order>, ledger: Ledger, events: seq<LedgerEvent>, orders': Table<Order>, ledger': Ledger)
    decreases |events|
  {
    if events == [] then orders' == orders && ledger' == ledger
    else
      && Allowed(orders, ledger, events[0])
      && History(OrdersAfter(orders, events[0]), LedgerAfter(ledger, events[0]), events[1..], orders', ledger')
  }

  /** Over every history: legacy rows match their orders and are never second to a payment. */
  lemma {:induction false} HistoryKeepsSane(orders: Table<Order>, ledger: Ledger, events: seq<LedgerEvent>,
                                            orders': Table<Order>, ledger': Ledger)
    requires LedgerSane(orders, ledger) && History(orders, ledger, events, orders', ledger')
    ensures LedgerSane(orders', ledger')
    decreases |events|
  {
    if events != [] {
      EventKeepsSane(orders, ledger, events[0]);
      HistoryKeepsSane(OrdersAfter(orders, events[0]), LedgerAfter(ledger, events[0]), events[1..], orders', ledger');
    }
  }

  /** What an event writes: payments are appended, an order is put or has its two paid columns set, and nothing else moves. */
  lemma EventWrites(orders: Table<Order>, ledger: Ledger, e: LedgerEvent, i: Id)
    requires Allowed(orders, ledger, e)
    ensures match e
            case LegacyBatch(_, rows) => OrdersAfter(orders, e) == orders && LedgerAfter(ledger, e) == ledger + rows
            case Recorded(p) => OrdersAfter(orders, e) == orders && LedgerAfter(ledger, e) == ledger + [p]
            case Ordered(id, o) => LedgerAfter(ledger, e) == ledger && id in OrdersAfter(orders, e) && OrdersAfter(orders, e)[id] == o
            case PaidFlag(id, paid, paidOn) =>
              var after := OrdersAfter(orders, e);
              && LedgerAfter(ledger, e) == ledger && id in after && after[id].paid == paid && after[id].paidOn == paidOn
              && orders[id] == after[id].(paid := orders[id].paid, paidOn := orders[id].paidOn)
    ensures i in OrdersAfter(orders, e) <==> i in orders || (e.Ordered? && i == e.id)
    ensures i in orders && ((e.Ordered? || e.PaidFlag?) ==> i != e.id) ==> OrdersAfter(orders, e)[i] == orders[i]
  {
  }

  /** The synthesis is such a history, of a single batch. */
  lemma SynthesisIsHistory(orders: Table<Order>, ledger: Ledger, rows: seq<Payment>)
    requires LegacyRowsOf(orders, Missing(orders, ledger), rows)
    ensures History(orders, ledger, [LegacyBatch(Missing(orders, ledger), rows)], orders, ledger + rows)
  {
    var e := LegacyBatch(Missing(orders, ledger), rows);
    assert [e][1..] == [];
    assert History(OrdersAfter(orders, e), LedgerAfter(ledger, e), [e][1..], orders, ledger + rows);
  }

  /* ---------- The migration itself ---------- */

  /** The two assertions the migration ends with. */
  ghost predicate AssertionsHold(orders: Table<Order>, ledger: Ledger) {
    && (forall i | i in orders && IsPaidFor(orders[i]) :: exists k :: 0 <= k < |ledger| && ledger[k].order == i)
    && (forall k | 0 <= k < |ledger| && ledger[k].reference == LEGACY && ledger[k].order in orders ::
          orders[ledger[k].order].cents == Some(ledger[k].amount))
  }

  /** What the unique index on valid invoices requires. */
  ghost predicate IndexBuilds(invoices: Table<Invoice>) {
    forall i, j | i in invoices && j in invoices && i != j && invoices[i].valid && invoices[j].valid ::
      invoices[i].order != invoices[j].order
  }

  lemma NothingMissing(orders: Table<Order>, ledger: Ledger)
    requires LedgerSane(orders, ledger) && Missing(orders, ledger) == {}
    ensures AssertionsHold(orders, ledger)
  {
    forall i | i in orders && IsPaidFor(orders[i]) ensures exists k :: 0 <= k < |ledger| && ledger[k].order == i {
      assert i !in Missing(orders, ledger);
      var k :| 0 <= k < |ledger| && ledger[k].order == i && ledger[k].kind == PAYMENT;
    }
  }

  class LedgerTables {
    const orders: Table<Order>
    var invoices: Table<Invoice>
    var ledger: Ledger

    constructor (orders: Table<Order>, invoices: Table<Invoice>, ledger: Ledger)
      ensures this.orders == orders && this.invoices == invoices && this.ledger == ledger
    {
      this.orders, this.invoices, this.ledger := orders, invoices, ledger;
    }

    /** One uninterrupted run, after any history: the index builds and both assertions pass. */
    method Upgrade(batch: nat) returns (total: nat, ghost added: seq<Payment>)
      requires batch >= 1 && LedgerSane(orders, ledger)
      modifies this
      ensures ledger == old(ledger) + added
      ensures LegacyRowsOf(orders, Missing(orders, old(ledger)), added) && total == |added|
      ensures invoices == Invalidated(old(invoices), Duplicates(old(invoices))) && IndexBuilds(invoices)
      ensures AssertionsHold(orders, ledger) && LedgerSane(orders, ledger)
    {
      ghost var before := ledger;
      var n: nat;
      ledger, total, added := SynthesizeLegacyRows(orders, ledger, batch);
      invoices := Invalidated(invoices, Duplicates(invoices));
      // the re-run right before the assertions
      ghost var again: seq<Payment>;
      ledger, n, again := SynthesizeLegacyRows(orders, ledger, batch);
      assert again == [];
      assert ledger == before + added;
      AppendKeepsSane(orders, before, Missing(orders, before), added);
      NothingMissing(orders, ledger);
      BuildsAfterDedup(old(invoices));
    }
  }

  lemma BuildsAfterDedup(v: Table<Invoice>)
    ensures IndexBuilds(Invalidated(v, Duplicates(v)))
  {
    var w := Invalidated(v, Duplicates(v));
    forall i, j | i in w && j in w && i != j && w[i].valid && w[j].valid ensures w[i].order != w[j].order {
      NewestSurvivesAlone(v, i);
      NewestSurvivesAlone(v, j);
    }
  }
}
