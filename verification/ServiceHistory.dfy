/**
 Splitting a service's orders into the prices it was billed at over time
 (alembic/versions/sh1_service_history_repair.py).
 */
module ServiceHistory {
  import opened Common

  /** `isService`: the kind is SERVICE. */
  datatype Plan = Plan(company: Id, price: Option<int>, isService: bool, active: bool)
  datatype Line = Line(plan: Option<Id>, price: Option<int>, quantity: int)

  /** A RECURRING order that is not CANCELLED; other orders take no part. */
  datatype Order = Order(at: int, total: Option<int>, service: Option<Id>, lines: seq<Line>)

  datatype Service = Service(company: Id, client: Id, plan: Id, created: int, activation: Option<int>,
                             cancelledAt: Option<int>, recurrence: Option<Id>, end: Option<int>, next: Option<int>,
                             last: Option<int>, cancelled: bool, quantity: int, source: Option<string>,
                             installed: bool, installedAt: Option<int>)

  datatype Db = Db(plans: map<Id, Plan>, services: map<Id, Service>, orders: map<Id, Order>)

  /* ---------- Lines and totals ---------- */

  /** SUM(unit_price_cents * quantity), where a NULL product adds nothing. */
  function LineSum(lines: seq<Line>): int {
    if lines == [] then 0
    else LineSum(lines[1..]) + if lines[0].price.Some? then lines[0].price.value * lines[0].quantity else 0
  }

  predicate Matches(o: Order) {
    o.total == Some(LineSum(o.lines))
  }

  predicate SingleLine(o: Order) {
    |o.lines| == 1
  }

  /** max(quantity or 1, 1) */
  function Units(quantity: int): int {
    if quantity >= 1 then quantity else 1
  }

  /** The total is a whole number of cents for each unit; without units it is nothing. */
  predicate Divides(o: Order)
    requires SingleLine(o)
  {
    var q := o.lines[0].quantity;
    o.total.Some? && if q >= 1 then o.total.value % q == 0 else o.total.value == 0
  }

  /** The price of one unit; the divisor is positive, so `/` is Python's floor division. */
  function UnitPrice(o: Order): int
    requires SingleLine(o) && o.total.Some?
  {
    o.total.value / Units(o.lines[0].quantity)
  }

  /** A line that is off is priced at what was charged. */
  function Repriced(o: Order): Order
    requires SingleLine(o) && o.total.Some? && o.lines[0].price.Some?
  {
    if o.total.value != o.lines[0].price.value * Units(o.lines[0].quantity) then
      o.(lines := [o.lines[0].(price := Some(UnitPrice(o)))])
    else o
  }

  /** An order attached to historical service `key` of plan `p`. */
  function MovedTo(o: Order, key: Id, p: Id): Order
    requires SingleLine(o) && o.total.Some?
  {
    o.(service := Some(key), lines := [o.lines[0].(plan := Some(p), price := Some(UnitPrice(o)))])
  }

  lemma SumOfOne(l: Line)
    ensures LineSum([l]) == if l.price.Some? then l.price.value * l.quantity else 0
  {
    assert LineSum([l][1..]) == 0;
  }

  lemma QuotientTimes(t: int, q: int)
    requires q >= 1
    ensures (t / q) * q == t <==> t % q == 0
  {
    assert t == (t / q) * q + t % q;
  }

  lemma ProductDivides(a: int, q: int)
    requires q >= 1
    ensures (a * q) % q == 0 && (a * q) / q == a
  {
    var d, m := (a * q) / q, (a * q) % q;
    assert a * q == d * q + m;
    assert (a - d) * q == m;
    assert a - d >= 1 ==> (a - d) * q >= q;
    assert a - d <= -1 ==> (a - d) * q <= -q;
  }

  /** The floor division loses cents exactly when the total is not divisible. */
  lemma RepricedMatchesIff(o: Order)
    requires SingleLine(o) && o.total.Some? && o.lines[0].price.Some?
    ensures Matches(Repriced(o)) <==> Divides(o)
  {
    var q, t, p := o.lines[0].quantity, o.total.value, o.lines[0].price.value;
    SumOfOne(o.lines[0]);
    SumOfOne(o.lines[0].(price := Some(UnitPrice(o))));
    assert o.lines == [o.lines[0]];
    if q >= 1 {
      QuotientTimes(t, q);
      ProductDivides(p, q);
    } else {
      NoUnits(t, q);
    }
  }

  /** `price` is what one unit costs, rounded down; less than one unit costs the whole total. */
  ghost predicate IsUnitPrice(total: int, quantity: int, price: int) {
    if quantity >= 1 then price * quantity <= total < price * quantity + quantity else price == total
  }

  /** A line that is off, and only that, gets the unit price of what was charged. */
  lemma RepricedLine(o: Order)
    requires SingleLine(o) && o.total.Some? && o.lines[0].price.Some?
    ensures SingleLine(Repriced(o)) && Repriced(o) == o.(lines := [o.lines[0].(price := Repriced(o).lines[0].price)])
    ensures Repriced(o).lines[0].price.Some? && IsUnitPrice(o.total.value, o.lines[0].quantity, Repriced(o).lines[0].price.value)
  {
    assert o.lines == [o.lines[0]];
    UnitPriceIs(o);
    if o.lines[0].quantity >= 1 && o.total.value == o.lines[0].price.value * o.lines[0].quantity {
      assert Repriced(o) == o;
    }
  }

  /** A moved order is priced alike, on the plan of its historical service. */
  lemma MovedLine(o: Order, key: Id, p: Id)
    requires SingleLine(o) && o.total.Some?
    ensures var w := MovedTo(o, key, p);
            && SingleLine(w) && w.service == Some(key) && w.at == o.at && w.total == o.total
            && w.lines[0].plan == Some(p) && w.lines[0].quantity == o.lines[0].quantity
            && w.lines[0].price.Some? && IsUnitPrice(o.total.value, o.lines[0].quantity, w.lines[0].price.value)
  {
    UnitPriceIs(o);
  }

  lemma UnitPriceIs(o: Order)
    requires SingleLine(o) && o.total.Some?
    ensures IsUnitPrice(o.total.value, o.lines[0].quantity, UnitPrice(o))
  {
    if o.lines[0].quantity >= 1 {
      QuotientTimes(o.total.value, o.lines[0].quantity);
    }
  }

  lemma NoUnits(t: int, q: int)
    requires q < 1
    ensures t * q == t <==> t == 0
  {
    if t >= 1 {
      assert t * q <= 0;
    } else if t <= -1 {
      assert t * q >= 0;
    }
  }

  lemma MovedMatchesIff(o: Order, key: Id, p: Id)
    requires SingleLine(o) && o.total.Some?
    ensures Matches(MovedTo(o, key, p)) <==> Divides(o)
  {
    var q, t := o.lines[0].quantity, o.total.value;
    SumOfOne(o.lines[0].(plan := Some(p), price := Some(UnitPrice(o))));
    if q >= 1 {
      QuotientTimes(t, q);
    } else {
      NoUnits(t, q);
    }
  }

  lemma RepricedTwice(o: Order)
    requires SingleLine(o) && o.total.Some? && o.lines[0].price.Some?
    ensures Repriced(Repriced(o)) == Repriced(o)
  {
  }

  /* ---------- The plan behind an old price ---------- */

  function PlansAt(plans: map<Id, Plan>, company: Id, price: Option<int>): set<Id> {
    set p | p in plans && plans[p].isService && plans[p].company == company && plans[p].price == price
  }

  function StillSold(plans: map<Id, Plan>, candidates: set<Id>): set<Id> {
    set p | p in candidates && p in plans && plans[p].active
  }

  function Only(s: set<Id>): (x: Id)
    requires |s| == 1
    ensures s == {x}
  {
    NonEmpty(s);
    OneElement(s);
    var x :| x in s;
    x
  }

  lemma OneElement(s: set<Id>)
    requires |s| == 1
    ensures forall x | x in s :: s == {x}
  {
    forall x | x in s ensures s == {x} {
      assert |s - {x}| == 0;
      assert s == (s - {x}) + {x};
    }
  }

  function PlanForPrice(plans: map<Id, Plan>, company: Id, price: Option<int>): Option<Id> {
    var candidates := PlansAt(plans, company, price);
    var active := StillSold(plans, candidates);
    if |candidates| == 1 then Some(Only(candidates))
    else if |active| == 1 then Some(Only(active))
    else None
  }

  /** The plan found is the only one at that price, or the only one still sold. */
  lemma PlanForPriceIff(plans: map<Id, Plan>, company: Id, price: Option<int>, p: Id)
    ensures PlanForPrice(plans, company, price) == Some(p) <==>
            p in PlansAt(plans, company, price) &&
            forall q | q in PlansAt(plans, company, price) :: q == p || (plans[p].active && !plans[q].active)
  {
    var candidates := PlansAt(plans, company, price);
    var active := StillSold(plans, candidates);
    if PlanForPrice(plans, company, price) == Some(p) {
      assert candidates == {p} || active == {p};
      assert p in StillSold(plans, {p}) <==> plans[p].active;
      forall q | q in candidates ensures q == p || (plans[p].active && !plans[q].active) {
        assert q in active <==> plans[q].active;
      }
    }
    if p in candidates && forall q | q in candidates :: q == p || (plans[p].active && !plans[q].active) {
      if plans[p].active {
        assert active == {p};
      } else {
        assert candidates == {p};
      }
    }
  }

  /* ---------- Runs of one price ---------- */

  datatype Run = Run(price: Option<int>, ids: seq<Id>)

  ghost predicate Known(orders: map<Id, Order>, ids: seq<Id>) {
    forall k | 0 <= k < |ids| :: ids[k] in orders
  }

  function Joined(runs: seq<Run>): seq<Id> {
    if runs == [] then [] else Joined(runs[..|runs| - 1]) + runs[|runs| - 1].ids
  }

  /** Longest stretches of one total. */
  ghost predicate AreRuns(orders: map<Id, Order>, runs: seq<Run>, ids: seq<Id>)
    requires Known(orders, ids)
  {
    && Joined(runs) == ids
    && (forall k | 0 <= k < |runs| :: IsRun(orders, runs[k]))
    && (forall k | 0 < k < |runs| :: runs[k - 1].price != runs[k].price)
  }

  ghost predicate IsRun(orders: map<Id, Order>, run: Run) {
    && run.ids != []
    && forall j | 0 <= j < |run.ids| :: run.ids[j] in orders && orders[run.ids[j]].total == run.price
  }

  /** Where run `k` stands in the joined runs. */
  function Offset(runs: seq<Run>, k: nat): nat
    requires k <= |runs|
  {
    |Joined(runs[..k])|
  }

  lemma {:induction false} JoinedAt(runs: seq<Run>, k: nat)
    requires k <= |runs|
    ensures Offset(runs, k) <= |Joined(runs)|
    ensures k < |runs| ==> Offset(runs, k + 1) == Offset(runs, k) + |runs[k].ids| <= |Joined(runs)|
    ensures k < |runs| ==> forall j | 0 <= j < |runs[k].ids| :: Joined(runs)[Offset(runs, k) + j] == runs[k].ids[j]
  {
    var n := |runs| - 1;
    if k < n {
      JoinedAt(runs[..n], k);
      assert runs[..n][..k] == runs[..k] && runs[..n][..k + 1] == runs[..k + 1];
    } else if k == n {
      assert runs[..k + 1] == runs;
    } else {
      assert runs[..k] == runs;
    }
  }

  lemma {:induction false} JoinedComesFrom(runs: seq<Run>, id: Id)
    requires id in Joined(runs)
    ensures exists k :: 0 <= k < |runs| && id in runs[k].ids
  {
    var n := |runs| - 1;
    if id !in runs[n].ids {
      JoinedComesFrom(runs[..n], id);
    }
  }

  lemma RepeatStays(front: seq<Id>, more: seq<Id>)
    requires !Distinct(front)
    ensures !Distinct(front + more)
  {
    var a, b :| 0 <= a < b < |front| && front[a] == front[b];
    assert (front + more)[a] == (front + more)[b];
  }

  lemma RepeatBetween(front: seq<Id>, more: seq<Id>, id: Id)
    requires id in front && id in more
    ensures !Distinct(front + more)
  {
    var a :| 0 <= a < |front| && front[a] == id;
    var b :| 0 <= b < |more| && more[b] == id;
    assert (front + more)[a] == (front + more)[|front| + b];
  }

  lemma {:induction false} JoinedDistinct(runs: seq<Run>, j: nat, k: nat, id: Id)
    requires j < k < |runs| && id in runs[j].ids && id in runs[k].ids
    ensures !Distinct(Joined(runs))
  {
    var n := |runs| - 1;
    var front := Joined(runs[..n]);
    if k < n {
      JoinedDistinct(runs[..n], j, k, id);
      RepeatStays(front, runs[n].ids);
    } else {
      JoinedAt(runs[..n], j);
      RepeatBetween(front, runs[n].ids, id);
    }
  }

  ghost predicate Distinct(ids: seq<Id>) {
    forall a, b | 0 <= a < b < |ids| :: ids[a] != ids[b]
  }

  lemma JoinOne(runs: seq<Run>, run: Run)
    ensures Joined(runs + [run]) == Joined(runs) + run.ids
  {
    assert (runs + [run])[..|runs|] == runs;
  }

  lemma GrowLastRun(orders: map<Id, Order>, runs: seq<Run>, ids: seq<Id>, id: Id)
    requires Known(orders, ids) && AreRuns(orders, runs, ids) && id in orders
    requires runs != [] && runs[|runs| - 1].price == orders[id].total
    ensures var n := |runs| - 1;
            Known(orders, ids + [id]) && AreRuns(orders, runs[..n] + [runs[n].(ids := runs[n].ids + [id])], ids + [id])
  {
    var n := |runs| - 1;
    var last := runs[n].(ids := runs[n].ids + [id]);
    JoinOne(runs[..n], last);
    assert Joined(runs[..n]) + (runs[n].ids + [id]) == ids + [id];
    assert IsRun(orders, runs[n]) && IsRun(orders, last);
  }

  lemma StartRun(orders: map<Id, Order>, runs: seq<Run>, ids: seq<Id>, id: Id)
    requires Known(orders, ids) && AreRuns(orders, runs, ids) && id in orders
    requires runs != [] ==> runs[|runs| - 1].price != orders[id].total
    ensures Known(orders, ids + [id]) && AreRuns(orders, runs + [Run(orders[id].total, [id])], ids + [id])
  {
    JoinOne(runs, Run(orders[id].total, [id]));
  }

  method BuildRuns(orders: map<Id, Order>, ids: seq<Id>) returns (runs: seq<Run>)
    requires Known(orders, ids)
    ensures AreRuns(orders, runs, ids)
  {
    runs := [];
    for i := 0 to |ids|
      invariant AreRuns(orders, runs, ids[..i])
    {
      assert ids[..i + 1] == ids[..i] + [ids[i]];
      var n := |runs|;
      if n > 0 && runs[n - 1].price == orders[ids[i]].total {
        GrowLastRun(orders, runs, ids[..i], ids[i]);
        runs := runs[..n - 1] + [runs[n - 1].(ids := runs[n - 1].ids + [ids[i]])];
      } else {
        StartRun(orders, runs, ids[..i], ids[i]);
        runs := runs + [Run(orders[ids[i]].total, [ids[i]])];
      }
    }
    assert ids[..|ids|] == ids;
  }

  /** The last run starts at `x`: everything from `x` has the last total, and what stands before `x` has not. */
  ghost predicate LastRunStarts(orders: map<Id, Order>, ids: seq<Id>, x: int)
    requires Known(orders, ids) && ids != []
  {
    var price := orders[ids[|ids| - 1]].total;
    && 0 <= x < |ids|
    && (forall k | x <= k < |ids| :: orders[ids[k]].total == price)
    && (x > 0 ==> orders[ids[x - 1]].total != price)
  }

  lemma LastRun(orders: map<Id, Order>, runs: seq<Run>, ids: seq<Id>)
    requires Known(orders, ids) && AreRuns(orders, runs, ids) && runs != []
    ensures var last, front := runs[|runs| - 1], Joined(runs[..|runs| - 1]);
            && ids != [] && LastRunStarts(orders, ids, |front|)
            && last == Run(orders[ids[|ids| - 1]].total, ids[|front|..]) && front == ids[..|front|]
  {
    var n := |runs| - 1;
    var last, front := runs[n], Joined(runs[..n]);
    assert IsRun(orders, last);
    assert ids == front + last.ids && ids[|front|..] == last.ids;
    forall k | |front| <= k < |ids| ensures orders[ids[k]].total == last.price {
      assert ids[k] == last.ids[k - |front|];
    }
    if n > 0 {
      BeforeLastRun(orders, runs, ids);
    } else {
      assert front == [];
    }
  }

  lemma BeforeLastRun(orders: map<Id, Order>, runs: seq<Run>, ids: seq<Id>)
    requires Known(orders, ids) && AreRuns(orders, runs, ids) && |runs| > 1
    ensures var x := |Joined(runs[..|runs| - 1])|; 0 < x < |ids| && orders[ids[x - 1]].total != runs[|runs| - 1].price
  {
    var n := |runs| - 1;
    var before, front := runs[n - 1], Joined(runs[..n]);
    assert IsRun(orders, before) && IsRun(orders, runs[n]);
    assert runs[..n][..n - 1] == runs[..n - 1];
    assert front == Joined(runs[..n - 1]) + before.ids;
    assert ids[|front| - 1] == before.ids[|before.ids| - 1];
  }

  /** There is one way to cut a history into runs. */
  lemma {:induction false} RunsAreUnique(orders: map<Id, Order>, a: seq<Run>, b: seq<Run>, ids: seq<Id>)
    requires Known(orders, ids) && AreRuns(orders, a, ids) && AreRuns(orders, b, ids)
    ensures a == b
    decreases |a|
  {
    if a == [] {
      EmptyJoin(b);
    } else if b == [] {
      EmptyJoin(a);
    } else {
      var m, n := |a| - 1, |b| - 1;
      SameLastRun(orders, a, b, ids);
      EarlierRuns(orders, a, ids);
      EarlierRuns(orders, b, ids);
      RunsAreUnique(orders, a[..m], b[..n], Joined(a[..m]));
      assert a == a[..m] + [a[m]] && b == b[..n] + [b[n]];
    }
  }

  lemma SameLastRun(orders: map<Id, Order>, a: seq<Run>, b: seq<Run>, ids: seq<Id>)
    requires Known(orders, ids) && AreRuns(orders, a, ids) && AreRuns(orders, b, ids) && a != [] && b != []
    ensures a[|a| - 1] == b[|b| - 1] && Joined(a[..|a| - 1]) == Joined(b[..|b| - 1])
  {
    LastRun(orders, a, ids);
    LastRun(orders, b, ids);
    OneLastStart(orders, ids, |Joined(a[..|a| - 1])|, |Joined(b[..|b| - 1])|);
  }

  lemma OneLastStart(orders: map<Id, Order>, ids: seq<Id>, x: int, y: int)
    requires Known(orders, ids) && ids != [] && LastRunStarts(orders, ids, x) && LastRunStarts(orders, ids, y)
    ensures x == y
  {
  }

  lemma EarlierRuns(orders: map<Id, Order>, runs: seq<Run>, ids: seq<Id>)
    requires Known(orders, ids) && AreRuns(orders, runs, ids) && runs != []
    ensures var front := runs[..|runs| - 1]; Known(orders, Joined(front)) && AreRuns(orders, front, Joined(front))
  {
    LastRun(orders, runs, ids);
  }

  lemma EmptyJoin(runs: seq<Run>)
    requires Joined(runs) == [] && forall k | 0 <= k < |runs| :: runs[k].ids != []
    ensures runs == []
  {
  }

  /* ---------- Services that switched price once ---------- */

  /** The orders of service `sid` by creation; ties come in any order. */
  ghost predicate IsHistory(orders: map<Id, Order>, sid: Id, ids: seq<Id>) {
    && Known(orders, ids) && Distinct(ids)
    && (forall o | o in orders :: orders[o].service == Some(sid) <==> o in ids)
    && (forall a, b | 0 <= a < b < |ids| :: orders[ids[a]].at <= orders[ids[b]].at)
  }

  /** The position of the first order at `price`. */
  function FirstAt(orders: map<Id, Order>, ids: seq<Id>, price: Option<int>): (first: nat)
    requires Known(orders, ids)
    ensures first <= |ids| && (first < |ids| ==> orders[ids[first]].total == price)
    ensures forall k | 0 <= k < first :: orders[ids[k]].total != price
  {
    if ids == [] || orders[ids[0]].total == price then 0 else 1 + FirstAt(orders, ids[1..], price)
  }

  predicate AllSingle(orders: map<Id, Order>, ids: seq<Id>)
    requires Known(orders, ids)
  {
    forall k | 0 <= k < |ids| :: SingleLine(orders[ids[k]])
  }

  predicate Switches(orders: map<Id, Order>, ids: seq<Id>, price: Option<int>)
    requires Known(orders, ids)
  {
    var first := FirstAt(orders, ids, price);
    && AllSingle(orders, ids) && 0 < first < |ids|
    && forall k | first <= k < |ids| :: orders[ids[k]].total == price
  }

  /** Other prices before position `first`, the current price from there on. */
  predicate ChangesAt(orders: map<Id, Order>, ids: seq<Id>, price: Option<int>, first: nat)
    requires Known(orders, ids)
  {
    0 < first < |ids| && forall k | 0 <= k < |ids| :: orders[ids[k]].total == price <==> first <= k
  }

  /** A clean switch: the price becomes the current one once and never goes back. */
  lemma SwitchesIff(orders: map<Id, Order>, ids: seq<Id>, price: Option<int>)
    requires Known(orders, ids)
    ensures Switches(orders, ids, price) <==> AllSingle(orders, ids) && exists first :: ChangesAt(orders, ids, price, first)
  {
    if Switches(orders, ids, price) {
      assert ChangesAt(orders, ids, price, FirstAt(orders, ids, price));
    }
    if first: nat :| ChangesAt(orders, ids, price, first) {
      assert orders[ids[first]].total == price;
    }
  }

  predicate AllPlanned(db: Db, company: Id, ids: seq<Id>)
    requires Known(db.orders, ids)
  {
    forall k | 0 <= k < |ids| :: PlanForPrice(db.plans, company, db.orders[ids[k]].total).Some?
  }

  /** A clean switch whose older prices all have a plan. */
  predicate Clean(db: Db, s: Service, ids: seq<Id>)
    requires Known(db.orders, ids) && s.plan in db.plans
  {
    var first := FirstAt(db.orders, ids, db.plans[s.plan].price);
    Switches(db.orders, ids, db.plans[s.plan].price) && AllPlanned(db, s.company, ids[..first])
  }

  /** `p` is the one plan of the company at this price, or the one still sold. */
  ghost predicate IsPlanAt(plans: map<Id, Plan>, company: Id, price: Option<int>, p: Id) {
    && p in plans && plans[p].isService && plans[p].company == company && plans[p].price == price
    && forall q | q in plans && plans[q].isService && plans[q].company == company && plans[q].price == price ::
         q == p || (plans[p].active && !plans[q].active)
  }

  /** A service is split exactly when its price changed once, to the current one, and every older price has its plan. */
  lemma CleanIff(db: Db, s: Service, ids: seq<Id>)
    requires Known(db.orders, ids) && s.plan in db.plans
    ensures Clean(db, s, ids) <==>
            && (forall k | 0 <= k < |ids| :: |db.orders[ids[k]].lines| == 1)
            && exists first :: ChangesAt(db.orders, ids, db.plans[s.plan].price, first) && OlderPlanned(db, s.company, ids, first)
  {
    var price := db.plans[s.plan].price;
    SwitchesIff(db.orders, ids, price);
    forall first: nat | ChangesAt(db.orders, ids, price, first)
      ensures first == FirstAt(db.orders, ids, price)
      ensures OlderPlanned(db, s.company, ids, first) <==> AllPlanned(db, s.company, ids[..first])
    {
      assert db.orders[ids[first]].total == price;
      OlderPlannedIff(db, s.company, ids, first);
    }
    if Switches(db.orders, ids, price) {
      assert ChangesAt(db.orders, ids, price, FirstAt(db.orders, ids, price));
    }
  }

  ghost predicate HasPlanAt(plans: map<Id, Plan>, company: Id, price: Option<int>) {
    exists p :: IsPlanAt(plans, company, price, p)
  }

  ghost predicate OlderPlanned(db: Db, company: Id, ids: seq<Id>, first: nat)
    requires Known(db.orders, ids) && first <= |ids|
  {
    forall k | 0 <= k < first :: HasPlanAt(db.plans, company, db.orders[ids[k]].total)
  }

  lemma OlderPlannedIff(db: Db, company: Id, ids: seq<Id>, first: nat)
    requires Known(db.orders, ids) && first <= |ids|
    ensures OlderPlanned(db, company, ids, first) <==> AllPlanned(db, company, ids[..first])
  {
    var front := ids[..first];
    forall k | 0 <= k < first
      ensures front[k] == ids[k]
      ensures HasPlanAt(db.plans, company, db.orders[ids[k]].total) <==>
              PlanForPrice(db.plans, company, db.orders[front[k]].total).Some?
    {
      SomePlanIff(db.plans, company, db.orders[ids[k]].total);
    }
  }

  lemma SomePlanIff(plans: map<Id, Plan>, company: Id, price: Option<int>)
    ensures HasPlanAt(plans, company, price) <==> PlanForPrice(plans, company, price).Some?
  {
    forall p ensures IsPlanAt(plans, company, price, p) <==> PlanForPrice(plans, company, price) == Some(p) {
      PlanForPriceIff(plans, company, price, p);
    }
    if PlanForPrice(plans, company, price).Some? {
      assert IsPlanAt(plans, company, price, PlanForPrice(plans, company, price).value);
    }
  }

  /* ---------- Splitting a service ---------- */

  /** What a split starts from: a service, its orders, and the runs before the current price. */
  datatype Split = Split(db: Db, sid: Id, ids: seq<Id>, first: nat, runs: seq<Run>)

  ghost predicate SplitOk(t: Split) {
    && t.sid in t.db.services && t.db.services[t.sid].plan in t.db.plans
    && IsHistory(t.db.orders, t.sid, t.ids)
    && Clean(t.db, t.db.services[t.sid], t.ids)
    && t.first == FirstAt(t.db.orders, t.ids, t.db.plans[t.db.services[t.sid].plan].price)
    && AreRuns(t.db.orders, t.runs, t.ids[..t.first])
  }

  /** When run `k` starts; the last boundary is the first order at the current price. */
  function Boundary(t: Split, k: nat): int
    requires SplitOk(t) && k <= |t.runs|
  {
    if k < |t.runs| then t.db.orders[t.runs[k].ids[0]].at else t.db.orders[t.ids[t.first]].at
  }

  function StartOf(t: Split, k: nat): int
    requires SplitOk(t) && k < |t.runs|
  {
    var since := t.db.services[t.sid].activation;
    if k == 0 && since.Some? && since.value <= Boundary(t, 0) then since.value else Boundary(t, k)
  }

  function PlanOfRun(t: Split, k: nat): (p: Id)
    requires SplitOk(t) && k < |t.runs|
    ensures p in PlansAt(t.db.plans, t.db.services[t.sid].company, t.runs[k].price)
  {
    RunIsPlanned(t, k);
    var plan := PlanForPrice(t.db.plans, t.db.services[t.sid].company, t.runs[k].price);
    PlanForPriceIff(t.db.plans, t.db.services[t.sid].company, t.runs[k].price, plan.value);
    plan.value
  }

  lemma RunIsPlanned(t: Split, k: nat)
    requires SplitOk(t) && k < |t.runs|
    ensures PlanForPrice(t.db.plans, t.db.services[t.sid].company, t.runs[k].price).Some?
  {
    JoinedAt(t.runs, k);
    assert t.runs[k].ids[0] == t.ids[..t.first][Offset(t.runs, k)];
  }

  /** The CANCELLED service inserted for run `k`. */
  function Historical(t: Split, k: nat): Service
    requires SplitOk(t) && k < |t.runs|
  {
    var s, ids := t.db.services[t.sid], t.runs[k].ids;
    var last := Some(t.db.orders[ids[|ids| - 1]].at);
    Service(s.company, s.client, PlanOfRun(t, k), StartOf(t, k), Some(StartOf(t, k)), Some(Boundary(t, k + 1)),
            s.recurrence, last, None, last, true, s.quantity, Some("sh1"),
            s.installed, if s.installed then Some(StartOf(t, k)) else None)
  }

  /** The current service, from its first order at the current price. */
  function Shifted(t: Split): Service
    requires SplitOk(t)
  {
    var at := Boundary(t, |t.runs|);
    t.db.services[t.sid].(activation := Some(at), created := at)
  }

  predicate AllCharged(t: Split) {
    forall k | 0 <= k < |t.runs| :: t.runs[k].price.Some?
  }

  ghost predicate FreshKeys(db: Db, keys: seq<Id>) {
    Distinct(keys) && forall k | 0 <= k < |keys| :: keys[k] !in db.services
  }

  /** Orders of run `k` as the split leaves them. */
  ghost predicate RunMoved(t: Split, k: nat, key: Id, orders: map<Id, Order>)
    requires SplitOk(t) && k < |t.runs| && t.runs[k].price.Some?
  {
    forall j | 0 <= j < |t.runs[k].ids| ::
      && t.runs[k].ids[j] in orders && SingleLine(t.db.orders[t.runs[k].ids[j]])
      && orders[t.runs[k].ids[j]] == MovedTo(t.db.orders[t.runs[k].ids[j]], key, PlanOfRun(t, k))
  }

  ghost predicate IsSplit(t: Split, keys: seq<Id>, after: Db)
    requires SplitOk(t) && AllCharged(t)
  {
    && |keys| == |t.runs| && FreshKeys(t.db, keys)
    && (forall k | 0 <= k < |keys| :: keys[k] in after.services && after.services[keys[k]] == Historical(t, k))
    && t.sid in after.services && after.services[t.sid] == Shifted(t)
    && (forall k | 0 <= k < |keys| :: RunMoved(t, k, keys[k], after.orders))
    && (forall k | t.first <= k < |t.ids| :: t.ids[k] in after.orders && after.orders[t.ids[k]] == t.db.orders[t.ids[k]])
  }

  /** Run `k` in the whole history. */
  lemma RunPlace(t: Split, k: nat)
    requires SplitOk(t) && k <= |t.runs|
    ensures Offset(t.runs, k) <= t.first < |t.ids| && Boundary(t, k) == t.db.orders[t.ids[Offset(t.runs, k)]].at
    ensures k == |t.runs| ==> Offset(t.runs, k) == t.first
    ensures k < |t.runs| ==> Offset(t.runs, k + 1) == Offset(t.runs, k) + |t.runs[k].ids| <= t.first
    ensures k < |t.runs| ==> forall j | 0 <= j < |t.runs[k].ids| :: t.ids[Offset(t.runs, k) + j] == t.runs[k].ids[j]
  {
    JoinedAt(t.runs, k);
    assert k == |t.runs| ==> t.runs[..k] == t.runs;
    forall j | k < |t.runs| && 0 <= j < |t.runs[k].ids| ensures t.ids[Offset(t.runs, k) + j] == t.runs[k].ids[j] {
      assert t.ids[..t.first][Offset(t.runs, k) + j] == t.ids[Offset(t.runs, k) + j];
    }
  }

  /** The orders of run `k` lie between its boundaries. */
  lemma RunInTime(t: Split, k: nat, j: nat)
    requires SplitOk(t) && k < |t.runs| && j < |t.runs[k].ids|
    ensures t.runs[k].ids[j] in t.db.orders && t.runs[k].ids[|t.runs[k].ids| - 1] in t.db.orders
    ensures Boundary(t, k) <= t.db.orders[t.runs[k].ids[j]].at
         <= t.db.orders[t.runs[k].ids[|t.runs[k].ids| - 1]].at <= Boundary(t, k + 1)
  {
    RunPlace(t, k);
    RunPlace(t, k + 1);
    var n, x := |t.runs[k].ids|, Offset(t.runs, k);
    InOrder(t, x, x + j);
    InOrder(t, x + j, x + n - 1);
    InOrder(t, x + n - 1, x + n);
  }

  lemma InOrder(t: Split, a: nat, b: nat)
    requires SplitOk(t) && a <= b < |t.ids|
    ensures t.ids[a] in t.db.orders && t.ids[b] in t.db.orders && t.db.orders[t.ids[a]].at <= t.db.orders[t.ids[b]].at
  {
  }

  /** Historical service `k` ends when the next service starts, and its orders fall inside. */
  lemma RunTilesTime(t: Split, k: nat)
    requires SplitOk(t) && k < |t.runs|
    ensures var h := Historical(t, k);
            && h.activation == Some(h.created) && h.end.Some? && h.cancelledAt.Some?
            && h.cancelledAt == (if k + 1 < |t.runs| then Historical(t, k + 1).activation else Shifted(t).activation)
            && h.created <= Boundary(t, k) <= h.end.value <= h.cancelledAt.value
            && forall j | 0 <= j < |t.runs[k].ids| ::
                 h.created <= t.db.orders[t.runs[k].ids[j]].at <= h.end.value
  {
    forall j | 0 <= j < |t.runs[k].ids|
      ensures Boundary(t, k) <= t.db.orders[t.runs[k].ids[j]].at <= Historical(t, k).end.value <= Boundary(t, k + 1)
    {
      RunInTime(t, k, j);
    }
    assert t.runs[k].ids[0] in t.db.orders;
  }

  /** The first historical service starts where the service did, or at its first order if that is earlier. */
  lemma FirstRunStarts(t: Split)
    requires SplitOk(t)
    ensures var since, at := t.db.services[t.sid].activation, t.db.orders[t.ids[0]].at;
            t.runs != [] && Historical(t, 0).created == if since.Some? && since.value < at then since.value else at
  {
    assert t.ids[..t.first] != [];
    RunPlace(t, 0);
    assert t.ids[Offset(t.runs, 0) + 0] == t.runs[0].ids[0];
  }

  ghost predicate FollowsWithoutGap(services: seq<Service>) {
    && (forall k | 0 < k < |services| :: services[k - 1].cancelledAt == services[k].activation)
    && (forall k | 0 <= k < |services| :: services[k].activation == Some(services[k].created))
    && (forall k | 0 < k < |services| :: services[k - 1].created <= services[k].created)
  }

  /** The historical services and the shifted one, in order. */
  function Timeline(t: Split, keys: seq<Id>, after: Db): seq<Service>
    requires SplitOk(t) && AllCharged(t) && IsSplit(t, keys, after)
  {
    seq(|keys|, k requires 0 <= k < |keys| => after.services[keys[k]]) + [after.services[t.sid]]
  }

  /** The services tile the time since activation, and no order falls outside its own service. */
  lemma SplitTilesTime(t: Split, keys: seq<Id>, after: Db)
    requires SplitOk(t) && AllCharged(t) && IsSplit(t, keys, after)
    ensures FollowsWithoutGap(Timeline(t, keys, after))
    ensures forall k, j | 0 <= k < |keys| && 0 <= j < |t.runs[k].ids| ::
              var h := after.services[keys[k]];
              h.cancelledAt.Some? && h.created <= t.db.orders[t.runs[k].ids[j]].at <= h.cancelledAt.value
    ensures forall i | t.first <= i < |t.ids| :: after.services[t.sid].created <= t.db.orders[t.ids[i]].at
  {
    var line := Timeline(t, keys, after);
    forall k | 0 <= k < |keys|
      ensures line[k] == Historical(t, k) && line[k].activation == Some(line[k].created)
      ensures line[k].cancelledAt == line[k + 1].activation && line[k].created <= line[k + 1].created
    {
      RunTilesTime(t, k);
      assert k + 1 < |keys| ==> line[k + 1] == Historical(t, k + 1);
      assert k + 1 == |keys| ==> line[k + 1] == Shifted(t);
    }
    forall k, j | 0 <= k < |keys| && 0 <= j < |t.runs[k].ids|
      ensures var h := after.services[keys[k]];
              h.cancelledAt.Some? && h.created <= t.db.orders[t.runs[k].ids[j]].at <= h.cancelledAt.value
    {
      RunTilesTime(t, k);
    }
    RunPlace(t, |t.runs|);
  }

  /** The run of an order before the switch, and what became of the order. */
  lemma RunHolding(t: Split, keys: seq<Id>, after: Db, i: nat) returns (k: nat)
    requires SplitOk(t) && AllCharged(t) && IsSplit(t, keys, after) && i < t.first
    ensures k < |t.runs| && t.ids[i] in t.runs[k].ids && t.db.orders[t.ids[i]].total == t.runs[k].price
    ensures SingleLine(t.db.orders[t.ids[i]]) && t.ids[i] in after.orders
    ensures after.orders[t.ids[i]] == MovedTo(t.db.orders[t.ids[i]], keys[k], PlanOfRun(t, k))
  {
    assert t.ids[..t.first][i] == t.ids[i];
    JoinedComesFrom(t.runs, t.ids[i]);
    k :| 0 <= k < |t.runs| && t.ids[i] in t.runs[k].ids;
    assert RunMoved(t, k, keys[k], after.orders);
  }

  /** Runs and tail are the whole history, and no order is charged differently. */
  lemma SplitKeepsHistory(t: Split, keys: seq<Id>, after: Db, i: nat)
    requires SplitOk(t) && AllCharged(t) && IsSplit(t, keys, after) && i < |t.ids|
    ensures Joined(t.runs) + t.ids[t.first..] == t.ids
    ensures t.ids[i] in after.orders
    ensures var o, p := t.db.orders[t.ids[i]], after.orders[t.ids[i]];
            && p.total == o.total && p.at == o.at && |p.lines| == 1 && p.lines[0].quantity == o.lines[0].quantity
            && (i >= t.first ==> p == o)
            && (i < t.first ==> o.total.Some? && p.service.Some? && p.service.value in keys && p.lines[0].price == Some(UnitPrice(o)))
  {
    assert t.ids[..t.first] + t.ids[t.first..] == t.ids;
    if i < t.first {
      var k := RunHolding(t, keys, after, i);
    }
  }

  /** Each order ends on a service whose plan costs what it was charged. */
  lemma SplitMatchesPlans(t: Split, keys: seq<Id>, after: Db, i: nat)
    requires SplitOk(t) && AllCharged(t) && IsSplit(t, keys, after) && i < |t.ids|
    ensures t.ids[i] in after.orders
    ensures var s := after.orders[t.ids[i]].service;
            && s.Some? && s.value in after.services && after.services[s.value].plan in t.db.plans
            && t.db.plans[after.services[s.value].plan].price == t.db.orders[t.ids[i]].total
            && after.services[s.value].client == t.db.services[t.sid].client
            && (i < t.first ==>
                  && SingleLine(after.orders[t.ids[i]])
                  && after.orders[t.ids[i]].lines[0].plan == Some(after.services[s.value].plan)
                  && t.db.plans[after.services[s.value].plan].isService
                  && t.db.plans[after.services[s.value].plan].company == t.db.services[t.sid].company)
  {
    SplitKeepsHistory(t, keys, after, i);
    if i < t.first {
      var k := RunHolding(t, keys, after, i);
    }
  }

  /* ---------- The whole repair ---------- */

  /** Services with an order that its lines do not add up to. */
  function Affected(db: Db): set<Id> {
    set o | o in db.orders && db.orders[o].service.Some? && !Matches(db.orders[o]) :: db.orders[o].service.value
  }

  ghost predicate KeysOk(db: Db) {
    forall o | o in db.orders && db.orders[o].service.Some? :: db.orders[o].service.value in db.services
  }

  /** Reading a NULL amount raises a TypeError. */
  predicate Crashes(db: Db, sid: Id, ids: seq<Id>)
    requires Known(db.orders, ids) && sid in db.services
  {
    var s := db.services[sid];
    && s.plan in db.plans
    && if Clean(db, s, ids) then
         exists k :: 0 <= k < FirstAt(db.orders, ids, db.plans[s.plan].price) && db.orders[ids[k]].total.None?
       else
         exists k :: 0 <= k < |ids| && LacksAmount(db.orders[ids[k]])
  }

  predicate LacksAmount(o: Order) {
    SingleLine(o) && (o.total.None? || o.lines[0].price.None?)
  }

  /** What the repair of an unclean service makes of an order. */
  function Patched(o: Order): Order
    requires !LacksAmount(o)
  {
    if SingleLine(o) then Repriced(o) else o
  }

  ghost predicate LinesPatched(db: Db, sid: Id, ids: seq<Id>, after: Db)
    requires Known(db.orders, ids) && sid in db.services
  {
    && sid in after.services && after.services[sid] == db.services[sid]
    && forall k | 0 <= k < |ids| ::
         ids[k] in after.orders && !LacksAmount(db.orders[ids[k]]) && after.orders[ids[k]] == Patched(db.orders[ids[k]])
  }

  ghost predicate Untouched(db: Db, sid: Id, ids: seq<Id>, after: Db)
    requires Known(db.orders, ids) && sid in db.services
  {
    && sid in after.services && after.services[sid] == db.services[sid]
    && forall k | 0 <= k < |ids| :: ids[k] in after.orders && after.orders[ids[k]] == db.orders[ids[k]]
  }

  ghost predicate WasSplit(db: Db, sid: Id, ids: seq<Id>, after: Db) {
    exists t, keys :: SplitAs(db, sid, ids, t, keys, after)
  }

  ghost predicate SplitAs(db: Db, sid: Id, ids: seq<Id>, t: Split, keys: seq<Id>, after: Db) {
    t.db == db && t.sid == sid && t.ids == ids && SplitOk(t) && AllCharged(t) && IsSplit(t, keys, after)
  }

  ghost predicate ServiceRepaired(db: Db, sid: Id, ids: seq<Id>, after: Db)
    requires Known(db.orders, ids) && sid in db.services
  {
    var s := db.services[sid];
    if s.plan !in db.plans then Untouched(db, sid, ids, after)
    else if Clean(db, s, ids) then WasSplit(db, sid, ids, after)
    else LinesPatched(db, sid, ids, after)
  }

  /** Rows that the repair of the services `done` leaves alone. */
  ghost predicate OnlyThese(db: Db, done: set<Id>, after: Db) {
    && after.plans == db.plans && after.orders.Keys == db.orders.Keys && db.services.Keys <= after.services.Keys
    && (forall i | i in db.services && i !in done :: after.services[i] == db.services[i])
    && (forall o | o in db.orders && !HasServiceIn(db.orders[o], done) :: after.orders[o] == db.orders[o])
    && (forall o | o in db.orders && after.orders[o].service != db.orders[o].service ::
          after.orders[o].service.Some? && after.orders[o].service.value !in db.services)
    && (forall i | i in after.services && i !in db.services :: HasOrder(after.orders, i))
  }

  ghost predicate HasOrder(orders: map<Id, Order>, i: Id) {
    exists o :: o in orders && orders[o].service == Some(i)
  }

  predicate HasServiceIn(o: Order, services: set<Id>) {
    o.service.Some? && o.service.value in services
  }

  /** Every service comes with its orders. */
  ghost predicate HistoriesOf(db: Db, histories: map<Id, seq<Id>>) {
    forall sid | sid in histories :: sid in db.services && IsHistory(db.orders, sid, histories[sid])
  }

  /** The services `done` are repaired. */
  ghost predicate RepairedSo(db: Db, histories: map<Id, seq<Id>>, done: set<Id>, after: Db)
    requires HistoriesOf(db, histories) && done <= histories.Keys
  {
    && OnlyThese(db, done, after)
    && forall sid | sid in done :: ServiceRepaired(db, sid, histories[sid], after) && !Crashes(db, sid, histories[sid])
  }

  ghost predicate Repaired(db: Db, histories: map<Id, seq<Id>>, after: Db)
    requires HistoriesOf(db, histories) && histories.Keys == Affected(db)
  {
    RepairedSo(db, histories, Affected(db), after)
  }

  /** No single-line order is off: what the repair demands before it commits. */
  ghost predicate NoneRemain(db: Db) {
    forall o | o in db.orders && SingleLine(db.orders[o]) :: Matches(db.orders[o])
  }

  /* ---------- When the repair succeeds ---------- */

  /** Whether the single-line order at position `i` of its history will add up. */
  predicate WillMatch(db: Db, sid: Id, ids: seq<Id>, i: nat)
    requires Known(db.orders, ids) && sid in db.services && i < |ids|
  {
    var s, o := db.services[sid], db.orders[ids[i]];
    if SingleLine(o) then
      if s.plan !in db.plans then Matches(o)
      else if Clean(db, s, ids) && i >= FirstAt(db.orders, ids, db.plans[s.plan].price) then Matches(o)
      else Divides(o)
    else true
  }

  lemma WillMatchIff(db: Db, sid: Id, ids: seq<Id>, after: Db, i: nat)
    requires sid in db.services && IsHistory(db.orders, sid, ids) && ServiceRepaired(db, sid, ids, after) && i < |ids|
    ensures ids[i] in after.orders
    ensures |after.orders[ids[i]].lines| == |db.orders[ids[i]].lines|
    ensures SingleLine(db.orders[ids[i]]) ==> (Matches(after.orders[ids[i]]) <==> WillMatch(db, sid, ids, i))
  {
    var s, o := db.services[sid], db.orders[ids[i]];
    if s.plan in db.plans && Clean(db, s, ids) {
      var t, keys :| SplitAs(db, sid, ids, t, keys, after);
      SplitKeepsHistory(t, keys, after, i);
      SplitOrderMatches(t, keys, after, i);
    } else if s.plan in db.plans && SingleLine(o) {
      RepricedMatchesIff(o);
    }
  }

  lemma SplitOrderMatches(t: Split, keys: seq<Id>, after: Db, i: nat)
    requires SplitOk(t) && AllCharged(t) && IsSplit(t, keys, after) && i < |t.ids|
    ensures t.ids[i] in after.orders && SingleLine(t.db.orders[t.ids[i]])
    ensures i < t.first ==> (Matches(after.orders[t.ids[i]]) <==> Divides(t.db.orders[t.ids[i]]))
    ensures i >= t.first ==> after.orders[t.ids[i]] == t.db.orders[t.ids[i]]
  {
    if i < t.first {
      var k := RunHolding(t, keys, after, i);
      MovedMatchesIff(t.db.orders[t.ids[i]], keys[k], PlanOfRun(t, k));
    }
  }

  /** Orders outside the affected services are already right, or have no service to be repaired with. */
  ghost predicate AllWillMatch(db: Db, histories: map<Id, seq<Id>>)
    requires HistoriesOf(db, histories)
  {
    && (forall sid, i: nat | sid in histories && i < |histories[sid]| :: WillMatch(db, sid, histories[sid], i))
    && (forall o | o in db.orders && db.orders[o].service.None? && SingleLine(db.orders[o]) :: Matches(db.orders[o]))
  }

  /** The final check passes exactly when every total divides by its quantity where a line is repriced, and every other line was right. */
  lemma FinalCheckPassesIff(db: Db, histories: map<Id, seq<Id>>, after: Db)
    requires HistoriesOf(db, histories) && histories.Keys == Affected(db) && Repaired(db, histories, after)
    ensures NoneRemain(after) <==> AllWillMatch(db, histories)
  {
    forall sid, i: nat | sid in histories && i < |histories[sid]|
      ensures WillMatch(db, sid, histories[sid], i) <==>
              (SingleLine(after.orders[histories[sid][i]]) ==> Matches(after.orders[histories[sid][i]]))
    {
      WillMatchIff(db, sid, histories[sid], after, i);
    }
    if AllWillMatch(db, histories) {
      forall o | o in after.orders && SingleLine(after.orders[o]) ensures Matches(after.orders[o]) {
        if HasServiceIn(db.orders[o], Affected(db)) {
          var sid := db.orders[o].service.value;
          var i :| 0 <= i < |histories[sid]| && histories[sid][i] == o;
          assert WillMatch(db, sid, histories[sid], i);
        } else {
          UnaffectedMatches(db, o);
        }
      }
    }
  }

  lemma UnaffectedMatches(db: Db, o: Id)
    requires o in db.orders && !HasServiceIn(db.orders[o], Affected(db))
    ensures db.orders[o].service.None? || Matches(db.orders[o])
  {
  }

  /* ---------- Running the repair again ---------- */

  /** After a repair, what is still affected has an order of several lines, or none. */
  lemma StillAffectedIff(db: Db, histories: map<Id, seq<Id>>, after: Db, sid: Id)
    requires HistoriesOf(db, histories) && histories.Keys == Affected(db) && Repaired(db, histories, after) && NoneRemain(after)
    ensures sid in Affected(after) <==>
            exists o :: o in db.orders && db.orders[o].service == Some(sid) && !SingleLine(db.orders[o]) && !Matches(db.orders[o])
  {
    if sid in Affected(after) {
      var o :| o in after.orders && after.orders[o].service == Some(sid) && !Matches(after.orders[o]);
      OffOrderIsOld(db, histories, after, o);
    }
    forall o | o in db.orders && db.orders[o].service == Some(sid) && !SingleLine(db.orders[o]) && !Matches(db.orders[o])
      ensures sid in Affected(after)
    {
      SeveralLinesStay(db, histories, after, o);
    }
  }

  lemma SeveralLinesStay(db: Db, histories: map<Id, seq<Id>>, after: Db, o: Id)
    requires HistoriesOf(db, histories) && histories.Keys == Affected(db) && Repaired(db, histories, after)
    requires o in db.orders && !SingleLine(db.orders[o])
    ensures o in after.orders && after.orders[o] == db.orders[o]
  {
    if HasServiceIn(db.orders[o], Affected(db)) {
      var sid := db.orders[o].service.value;
      var i :| 0 <= i < |histories[sid]| && histories[sid][i] == o;
      assert ServiceRepaired(db, sid, histories[sid], after);
      if db.services[sid].plan in db.plans {
        assert !Clean(db, db.services[sid], histories[sid]);
      }
    }
  }

  lemma OffOrderIsOld(db: Db, histories: map<Id, seq<Id>>, after: Db, o: Id)
    requires HistoriesOf(db, histories) && histories.Keys == Affected(db) && Repaired(db, histories, after) && NoneRemain(after)
    requires o in after.orders && !Matches(after.orders[o])
    ensures !SingleLine(db.orders[o]) && after.orders[o] == db.orders[o]
  {
    if SingleLine(db.orders[o]) && HasServiceIn(db.orders[o], Affected(db)) {
      var sid := db.orders[o].service.value;
      var i :| 0 <= i < |histories[sid]| && histories[sid][i] == o;
      WillMatchIff(db, sid, histories[sid], after, i);
    }
    if !SingleLine(db.orders[o]) {
      SeveralLinesStay(db, histories, after, o);
    }
  }

  lemma RepairKeepsKeys(db: Db, histories: map<Id, seq<Id>>, after: Db)
    requires KeysOk(db)
    requires HistoriesOf(db, histories) && histories.Keys == Affected(db) && Repaired(db, histories, after)
    ensures KeysOk(after)
  {
    forall o | o in after.orders && after.orders[o].service.Some? ensures after.orders[o].service.value in after.services {
      if HasServiceIn(db.orders[o], Affected(db)) {
        var sid := db.orders[o].service.value;
        var i :| 0 <= i < |histories[sid]| && histories[sid][i] == o;
        RepairedOrderHasService(db, sid, histories[sid], after, i);
      }
    }
  }

  lemma HistoryHolds(orders: map<Id, Order>, sid: Id, ids: seq<Id>, i: nat)
    requires IsHistory(orders, sid, ids) && i < |ids|
    ensures ids[i] in orders && orders[ids[i]].service == Some(sid)
  {
    assert ids[i] in ids;
  }

  lemma RepairedOrderHasService(db: Db, sid: Id, ids: seq<Id>, after: Db, i: nat)
    requires sid in db.services && IsHistory(db.orders, sid, ids) && ServiceRepaired(db, sid, ids, after) && i < |ids|
    ensures ids[i] in after.orders && after.orders[ids[i]].service.Some? && after.orders[ids[i]].service.value in after.services
  {
    var s := db.services[sid];
    HistoryHolds(db.orders, sid, ids, i);
    if s.plan in db.plans && Clean(db, s, ids) {
      var t, keys :| SplitAs(db, sid, ids, t, keys, after);
      SplitMatchesPlans(t, keys, after, i);
    }
  }

  /** A service that is still affected was left as it is apart from its line prices, which are settled. */
  lemma StillAffectedIsSettled(db: Db, histories: map<Id, seq<Id>>, after: Db, sid: Id, o: Id)
    requires KeysOk(db)
    requires HistoriesOf(db, histories) && histories.Keys == Affected(db) && Repaired(db, histories, after) && NoneRemain(after)
    requires sid in Affected(after) && o in after.orders && after.orders[o].service == Some(sid)
    ensures sid in db.services && sid in after.services && after.services[sid] == db.services[sid]
    ensures db.services[sid].plan in db.plans ==> !LacksAmount(after.orders[o]) && Patched(after.orders[o]) == after.orders[o]
  {
    StillAffectedIff(db, histories, after, sid);
    var bad :| bad in db.orders && db.orders[bad].service == Some(sid) && !SingleLine(db.orders[bad]) && !Matches(db.orders[bad]);
    var ids := histories[sid];
    assert ServiceRepaired(db, sid, ids, after);
    var b :| 0 <= b < |ids| && ids[b] == bad;
    assert db.orders[o].service == Some(sid);
    var i :| 0 <= i < |ids| && ids[i] == o;
    if db.services[sid].plan in db.plans {
      assert !Clean(db, db.services[sid], ids);
      if SingleLine(db.orders[o]) {
        RepricedTwice(db.orders[o]);
      }
    }
  }

  /** On the second run a service is not a clean switch, and no amount is missing. */
  lemma SecondRunOnService(db: Db, histories: map<Id, seq<Id>>, after: Db, sid: Id, ids: seq<Id>, last: Db)
    requires KeysOk(db)
    requires HistoriesOf(db, histories) && histories.Keys == Affected(db) && Repaired(db, histories, after) && NoneRemain(after)
    requires sid in Affected(after) && sid in after.services && IsHistory(after.orders, sid, ids)
    ensures !Crashes(after, sid, ids)
    ensures ServiceRepaired(after, sid, ids, last) ==> Untouched(after, sid, ids, last)
  {
    SeveralLinesRemain(db, histories, after, sid, ids);
    forall i | 0 <= i < |ids|
      ensures after.services[sid].plan in after.plans ==>
                !LacksAmount(after.orders[ids[i]]) && Patched(after.orders[ids[i]]) == after.orders[ids[i]]
    {
      HistoryHolds(after.orders, sid, ids, i);
      StillAffectedIsSettled(db, histories, after, sid, ids[i]);
    }
    SettledServiceIsIdle(after, sid, ids, last);
  }

  lemma SeveralLinesRemain(db: Db, histories: map<Id, seq<Id>>, after: Db, sid: Id, ids: seq<Id>)
    requires HistoriesOf(db, histories) && histories.Keys == Affected(db) && Repaired(db, histories, after) && NoneRemain(after)
    requires sid in Affected(after) && IsHistory(after.orders, sid, ids)
    ensures !AllSingle(after.orders, ids)
  {
    StillAffectedIff(db, histories, after, sid);
    var bad :| bad in db.orders && db.orders[bad].service == Some(sid) && !SingleLine(db.orders[bad]) && !Matches(db.orders[bad]);
    SeveralLinesStay(db, histories, after, bad);
    var b :| 0 <= b < |ids| && ids[b] == bad;
  }

  lemma SettledServiceIsIdle(db: Db, sid: Id, ids: seq<Id>, after: Db)
    requires sid in db.services && IsHistory(db.orders, sid, ids) && !AllSingle(db.orders, ids)
    requires db.services[sid].plan in db.plans ==>
               forall i | 0 <= i < |ids| :: !LacksAmount(db.orders[ids[i]]) && Patched(db.orders[ids[i]]) == db.orders[ids[i]]
    ensures !Crashes(db, sid, ids)
    ensures ServiceRepaired(db, sid, ids, after) ==> Untouched(db, sid, ids, after)
  {
  }

  /** Running the repair again neither raises nor changes a row. */
  lemma RepairTwice(db: Db, histories: map<Id, seq<Id>>, after: Db, again: map<Id, seq<Id>>, last: Db)
    requires KeysOk(db)
    requires HistoriesOf(db, histories) && histories.Keys == Affected(db) && Repaired(db, histories, after) && NoneRemain(after)
    requires HistoriesOf(after, again) && again.Keys == Affected(after)
    ensures forall sid | sid in again :: !Crashes(after, sid, again[sid])
    ensures Repaired(after, again, last) ==> last == after
  {
    RepairKeepsKeys(db, histories, after);
    forall sid | sid in again
      ensures !Crashes(after, sid, again[sid])
      ensures ServiceRepaired(after, sid, again[sid], last) ==> Untouched(after, sid, again[sid], last)
    {
      SecondRunOnService(db, histories, after, sid, again[sid], last);
    }
    if Repaired(after, again, last) {
      UntouchedIsSame(after, again, last);
    }
  }

  lemma UntouchedIsSame(db: Db, histories: map<Id, seq<Id>>, after: Db)
    requires KeysOk(db) && HistoriesOf(db, histories) && histories.Keys == Affected(db) && OnlyThese(db, Affected(db), after)
    requires forall sid | sid in histories :: Untouched(db, sid, histories[sid], after)
    ensures after == db
  {
    forall o | o in db.orders ensures after.orders[o] == db.orders[o] {
      if HasServiceIn(db.orders[o], Affected(db)) {
        var sid := db.orders[o].service.value;
        assert Untouched(db, sid, histories[sid], after);
        var i :| 0 <= i < |histories[sid]| && histories[sid][i] == o;
      }
    }
    assert after.orders == db.orders;
    forall i | i in after.services ensures i in db.services && after.services[i] == db.services[i] {
      if i in histories {
        assert Untouched(db, i, histories[i], after);
      }
      assert HasOrder(after.orders, i) ==> i in db.services;
    }
    assert after.services == db.services;
  }

  /* ---------- One service at a time ---------- */

  lemma RunOfOrder(orders: map<Id, Order>, runs: seq<Run>, ids: seq<Id>, i: nat) returns (k: nat)
    requires Known(orders, ids) && AreRuns(orders, runs, ids) && i < |ids|
    ensures k < |runs| && orders[ids[i]].total == runs[k].price
  {
    JoinedComesFrom(runs, ids[i]);
    k :| 0 <= k < |runs| && ids[i] in runs[k].ids;
  }

  lemma OrderOfRun(orders: map<Id, Order>, runs: seq<Run>, ids: seq<Id>, k: nat)
    requires Known(orders, ids) && AreRuns(orders, runs, ids) && k < |runs|
    ensures Offset(runs, k) < |ids| && orders[ids[Offset(runs, k)]].total == runs[k].price
  {
    JoinedAt(runs, k);
    assert ids[Offset(runs, k) + 0] == runs[k].ids[0];
  }

  predicate RunsPlanned(db: Db, company: Id, runs: seq<Run>) {
    forall k | 0 <= k < |runs| :: PlanForPrice(db.plans, company, runs[k].price).Some?
  }

  /** Looking up one plan for a run is looking up a plan for each of its orders. */
  lemma PlannedByRun(db: Db, company: Id, runs: seq<Run>, ids: seq<Id>)
    requires Known(db.orders, ids) && AreRuns(db.orders, runs, ids)
    ensures AllPlanned(db, company, ids) <==> RunsPlanned(db, company, runs)
  {
    if AllPlanned(db, company, ids) {
      forall k | 0 <= k < |runs| ensures PlanForPrice(db.plans, company, runs[k].price).Some? {
        OrderOfRun(db.orders, runs, ids, k);
      }
    }
    if RunsPlanned(db, company, runs) {
      forall i | 0 <= i < |ids| ensures PlanForPrice(db.plans, company, db.orders[ids[i]].total).Some? {
        var k := RunOfOrder(db.orders, runs, ids, i);
      }
    }
  }

  lemma ChargedIff(t: Split)
    requires SplitOk(t)
    ensures AllCharged(t) <==> !Crashes(t.db, t.sid, t.ids)
  {
    if AllCharged(t) {
      forall i | 0 <= i < t.first ensures t.db.orders[t.ids[i]].total.Some? {
        var k := RunOfOrder(t.db.orders, t.runs, t.ids[..t.first], i);
        assert t.ids[..t.first][i] == t.ids[i];
      }
    } else {
      var k :| 0 <= k < |t.runs| && t.runs[k].price.None?;
      OrderOfRun(t.db.orders, t.runs, t.ids[..t.first], k);
      assert t.db.orders[t.ids[Offset(t.runs, k)]].total.None?;
    }
  }

  /** Both states hold the same about service `sid` with orders `ids`. */
  ghost predicate Agree(db: Db, now: Db, sid: Id, ids: seq<Id>) {
    && now.plans == db.plans
    && sid in db.services && sid in now.services && now.services[sid] == db.services[sid]
    && IsHistory(db.orders, sid, ids) && IsHistory(now.orders, sid, ids)
    && (forall k | 0 <= k < |ids| :: now.orders[ids[k]] == db.orders[ids[k]])
    && db.services.Keys <= now.services.Keys
  }

  lemma AgreeOnFirst(db: Db, now: Db, sid: Id, ids: seq<Id>, price: Option<int>)
    requires Agree(db, now, sid, ids)
    ensures FirstAt(now.orders, ids, price) == FirstAt(db.orders, ids, price)
  {
  }

  lemma AgreeOnClean(db: Db, now: Db, sid: Id, ids: seq<Id>)
    requires Agree(db, now, sid, ids)
    ensures db.services[sid].plan in db.plans ==> (Clean(now, now.services[sid], ids) <==> Clean(db, db.services[sid], ids))
    ensures Crashes(now, sid, ids) <==> Crashes(db, sid, ids)
  {
    if db.services[sid].plan in db.plans {
      AgreeOnFirst(db, now, sid, ids, db.plans[db.services[sid].plan].price);
    }
  }

  lemma AgreeOnSplit(db: Db, now: Db, t: Split, keys: seq<Id>, after: Db)
    requires Agree(db, now, t.sid, t.ids) && SplitAs(now, t.sid, t.ids, t, keys, after)
    ensures SplitAs(db, t.sid, t.ids, t.(db := db), keys, after)
  {
    var u := t.(db := db);
    AgreeOnClean(db, now, t.sid, t.ids);
    AgreeOnFirst(db, now, t.sid, t.ids, db.plans[db.services[t.sid].plan].price);
    AgreeOnRuns(db, now, t);
    forall k | 0 <= k < |keys| ensures Historical(u, k) == Historical(t, k) && RunMoved(u, k, keys[k], after.orders) {
      AgreeOnRun(db, now, t, k);
      assert RunMoved(t, k, keys[k], after.orders);
    }
    RunPlace(t, |t.runs|);
  }

  lemma AgreeOnRuns(db: Db, now: Db, t: Split)
    requires Agree(db, now, t.sid, t.ids) && SplitOk(t) && t.db == now
    ensures AreRuns(db.orders, t.runs, t.ids[..t.first])
  {
    forall k | 0 <= k < |t.runs| ensures IsRun(db.orders, t.runs[k]) {
      AgreeOnRunOrders(db, now, t, k);
    }
  }

  lemma AgreeOnRunOrders(db: Db, now: Db, t: Split, k: nat)
    requires Agree(db, now, t.sid, t.ids) && SplitOk(t) && t.db == now && k < |t.runs|
    ensures forall j | 0 <= j < |t.runs[k].ids| ::
              t.runs[k].ids[j] in db.orders && t.runs[k].ids[j] in now.orders && now.orders[t.runs[k].ids[j]] == db.orders[t.runs[k].ids[j]]
  {
    RunPlace(t, k);
    forall j | 0 <= j < |t.runs[k].ids|
      ensures t.runs[k].ids[j] in db.orders && t.runs[k].ids[j] in now.orders && now.orders[t.runs[k].ids[j]] == db.orders[t.runs[k].ids[j]]
    {
      assert t.ids[Offset(t.runs, k) + j] == t.runs[k].ids[j];
    }
  }

  lemma AgreeOnRun(db: Db, now: Db, t: Split, k: nat)
    requires Agree(db, now, t.sid, t.ids) && SplitOk(t) && t.db == now && SplitOk(t.(db := db)) && k < |t.runs|
    ensures Historical(t.(db := db), k) == Historical(t, k)
    ensures forall j | 0 <= j < |t.runs[k].ids| ::
              t.runs[k].ids[j] in db.orders && t.runs[k].ids[j] in now.orders && now.orders[t.runs[k].ids[j]] == db.orders[t.runs[k].ids[j]]
  {
    AgreeOnRunOrders(db, now, t, k);
    if k + 1 < |t.runs| {
      AgreeOnRunOrders(db, now, t, k + 1);
    }
    RunPlace(t, |t.runs|);
  }

  lemma AgreeOnRepair(db: Db, now: Db, sid: Id, ids: seq<Id>, after: Db)
    requires Agree(db, now, sid, ids) && ServiceRepaired(now, sid, ids, after)
    ensures ServiceRepaired(db, sid, ids, after)
  {
    AgreeOnClean(db, now, sid, ids);
    if now.services[sid].plan in db.plans && Clean(now, now.services[sid], ids) {
      var t, keys :| SplitAs(now, sid, ids, t, keys, after);
      AgreeOnSplit(db, now, t, keys, after);
    }
  }

  /* ---------- The rows of a split, read off the tables ---------- */

  /** `t` is the date of the last order that points at service `i`. */
  ghost predicate LastOrderAt(orders: map<Id, Order>, i: Id, t: int) {
    && (exists o :: o in orders && orders[o].service == Some(i) && orders[o].at == t)
    && (forall o | o in orders && orders[o].service == Some(i) :: orders[o].at <= t)
  }

  ghost predicate FirstOrderAt(orders: map<Id, Order>, i: Id, t: int) {
    && (exists o :: o in orders && orders[o].service == Some(i) && orders[o].at == t)
    && (forall o | o in orders && orders[o].service == Some(i) :: orders[o].at >= t)
  }

  /** The orders of run `k`, and no others, point at its service. */
  lemma OrdersOfRun(t: Split, keys: seq<Id>, after: Db, k: nat, o: Id)
    requires KeysOk(t.db) && SplitOk(t) && AllCharged(t) && IsSplit(t, keys, after) && OnlyThese(t.db, {t.sid}, after)
    requires k < |t.runs| && o in after.orders
    ensures after.orders[o].service == Some(keys[k]) <==> o in t.runs[k].ids
  {
    assert RunMoved(t, k, keys[k], after.orders);
    if after.orders[o].service == Some(keys[k]) {
      if !HasServiceIn(t.db.orders[o], {t.sid}) {
        RowStays(t.db, {t.sid}, after, o);
      }
      var i :| 0 <= i < |t.ids| && t.ids[i] == o;
      OrderOfSplit(t, keys, after, k, i);
    }
    if o in t.runs[k].ids {
      var j :| 0 <= j < |t.runs[k].ids| && t.runs[k].ids[j] == o;
    }
  }

  lemma OrderOfSplit(t: Split, keys: seq<Id>, after: Db, k: nat, i: nat)
    requires SplitOk(t) && AllCharged(t) && IsSplit(t, keys, after) && k < |t.runs| && i < |t.ids|
    requires t.ids[i] in after.orders && after.orders[t.ids[i]].service == Some(keys[k])
    ensures t.ids[i] in t.runs[k].ids
  {
    HistoryHolds(t.db.orders, t.sid, t.ids, i);
    if i < t.first {
      var j := RunHolding(t, keys, after, i);
      SamePosition(keys, j, k);
    }
  }

  lemma SamePosition(keys: seq<Id>, j: nat, k: nat)
    requires Distinct(keys) && j < |keys| && k < |keys| && keys[j] == keys[k]
    ensures j == k
  {
  }

  /**
   A historical service is a copy of the split one for the time of its run: it is cancelled and generates
   nothing more, and it ends with the last order that now points at it.
   */
  lemma HistoricalRow(t: Split, keys: seq<Id>, after: Db, k: nat)
    requires KeysOk(t.db) && SplitOk(t) && AllCharged(t) && IsSplit(t, keys, after) && OnlyThese(t.db, {t.sid}, after)
    requires k < |keys|
    ensures keys[k] in after.services
    ensures var h, s := after.services[keys[k]], t.db.services[t.sid];
            && h.end.Some? && LastOrderAt(after.orders, keys[k], h.end.value) && h.last == h.end
            && h.next.None? && h.cancelled && h.source == Some("sh1")
            && h.company == s.company && h.client == s.client && h.recurrence == s.recurrence && h.quantity == s.quantity
            && h.installed == s.installed && h.installedAt == (if s.installed then Some(h.created) else None)
            && h.activation == Some(h.created)
  {
    var ids := t.runs[k].ids;
    var last := ids[|ids| - 1];
    RunInTime(t, k, |ids| - 1);
    assert RunMoved(t, k, keys[k], after.orders);
    forall o | o in after.orders && after.orders[o].service == Some(keys[k])
      ensures after.orders[o].at <= t.db.orders[last].at
    {
      OrdersOfRun(t, keys, after, k, o);
      var j :| 0 <= j < |ids| && ids[j] == o;
      RunInTime(t, k, j);
    }
    assert last in after.orders && after.orders[last].service == Some(keys[k]) && after.orders[last].at == t.db.orders[last].at;
  }

  /** The split service keeps everything but its start, which becomes the first order that still points at it. */
  lemma ShiftedRow(t: Split, keys: seq<Id>, after: Db)
    requires KeysOk(t.db) && SplitOk(t) && AllCharged(t) && IsSplit(t, keys, after) && OnlyThese(t.db, {t.sid}, after)
    ensures t.sid in after.services
    ensures var c, s := after.services[t.sid], t.db.services[t.sid];
            && FirstOrderAt(after.orders, t.sid, c.created) && c.activation == Some(c.created)
            && s == c.(created := s.created, activation := s.activation)
  {
    var at := Boundary(t, |t.runs|);
    HistoryHolds(t.db.orders, t.sid, t.ids, t.first);
    forall o | o in after.orders && after.orders[o].service == Some(t.sid) ensures after.orders[o].at >= at {
      assert t.db.orders[o].service == Some(t.sid);
      var i :| 0 <= i < |t.ids| && t.ids[i] == o;
      if i < t.first {
        var k := RunHolding(t, keys, after, i);
      }
    }
  }

  /* ---------- The repair as it runs ---------- */

  datatype RepairError = AmountIsNull | LinesRemainOff

  /** The historical services of the first runs are inserted, under `keys`. */
  ghost predicate InsertedSo(t: Split, keys: seq<Id>, services: map<Id, Service>)
    requires SplitOk(t)
  {
    && |keys| <= |t.runs| && FreshKeys(t.db, keys)
    && services.Keys == t.db.services.Keys + (set k | k in keys)
    && (forall i | i in t.db.services :: services[i] == t.db.services[i])
    && (forall k | 0 <= k < |keys| :: services[keys[k]] == Historical(t, k))
  }

  /** The orders of the first runs are moved to `keys`. */
  ghost predicate MovedSo(t: Split, keys: seq<Id>, orders: map<Id, Order>)
    requires SplitOk(t)
  {
    && |keys| <= |t.runs| && orders.Keys == t.db.orders.Keys
    && (forall k | 0 <= k < |keys| :: t.runs[k].price.Some? && RunMoved(t, k, keys[k], orders))
    && (forall o | o in t.db.orders && o !in Joined(t.runs[..|keys|]) :: orders[o] == t.db.orders[o])
  }

  /** The orders of `ids` now stand on `key`. */
  ghost predicate AreMoved(before: map<Id, Order>, ids: seq<Id>, key: Id, p: Id, orders: map<Id, Order>) {
    && orders.Keys == before.Keys
    && forall o | o in before ::
         if o in ids then SingleLine(before[o]) && before[o].total.Some? && orders[o] == MovedTo(before[o], key, p)
         else orders[o] == before[o]
  }

  /** The orders of the next run are still where they were. */
  lemma NextRunIsThere(t: Split, keys: seq<Id>, orders: map<Id, Order>)
    requires SplitOk(t) && |keys| < |t.runs| && MovedSo(t, keys, orders)
    ensures var ids := t.runs[|keys|].ids;
            && Known(orders, ids) && Distinct(ids) && AllSingle(orders, ids)
            && forall j | 0 <= j < |ids| ::
                 orders[ids[j]] == t.db.orders[ids[j]] && orders[ids[j]].total == t.runs[|keys|].price
  {
    var k := |keys|;
    RunPlace(t, k);
    forall j | 0 <= j < |t.runs[k].ids|
      ensures t.runs[k].ids[j] in orders && orders[t.runs[k].ids[j]] == t.db.orders[t.runs[k].ids[j]]
      ensures SingleLine(orders[t.runs[k].ids[j]])
    {
      var id := t.runs[k].ids[j];
      assert t.ids[Offset(t.runs, k) + j] == id;
      NotInEarlierRun(t, k, id);
    }
    forall a, b | 0 <= a < b < |t.runs[k].ids| ensures t.runs[k].ids[a] != t.runs[k].ids[b] {
      assert t.ids[Offset(t.runs, k) + a] != t.ids[Offset(t.runs, k) + b];
    }
  }

  lemma NotInEarlierRun(t: Split, k: nat, id: Id)
    requires SplitOk(t) && k < |t.runs| && id in t.runs[k].ids
    ensures id !in Joined(t.runs[..k])
  {
    if id in Joined(t.runs[..k]) {
      JoinedComesFrom(t.runs[..k], id);
      var j :| 0 <= j < k && id in t.runs[j].ids;
      JoinedDistinct(t.runs, j, k, id);
    }
  }

  lemma InsertOneMore(t: Split, keys: seq<Id>, services: map<Id, Service>, key: Id)
    requires SplitOk(t) && |keys| < |t.runs| && InsertedSo(t, keys, services) && key !in services
    ensures InsertedSo(t, keys + [key], services[key := Historical(t, |keys|)])
  {
    OneFreshKey(t.db, keys, key);
    var after, more := services[key := Historical(t, |keys|)], keys + [key];
    forall k | 0 <= k < |more| ensures after[more[k]] == Historical(t, k) {
      assert k < |keys| ==> more[k] == keys[k] && keys[k] in services;
    }
  }

  lemma OneFreshKey(db: Db, keys: seq<Id>, key: Id)
    requires FreshKeys(db, keys) && key !in db.services && key !in keys
    ensures FreshKeys(db, keys + [key])
    ensures (set k | k in keys + [key]) == (set k | k in keys) + {key}
  {
  }

  lemma MoveOneMore(t: Split, keys: seq<Id>, orders: map<Id, Order>, key: Id, after: map<Id, Order>)
    requires SplitOk(t) && |keys| < |t.runs| && MovedSo(t, keys, orders) && t.runs[|keys|].price.Some?
    requires AreMoved(orders, t.runs[|keys|].ids, key, PlanOfRun(t, |keys|), after)
    ensures MovedSo(t, keys + [key], after)
  {
    var k := |keys|;
    NextRunIsThere(t, keys, orders);
    assert t.runs[..k + 1] == t.runs[..k] + [t.runs[k]];
    JoinOne(t.runs[..k], t.runs[k]);
    forall j | 0 <= j < k ensures RunMoved(t, j, keys[j], after) {
      EarlierRunStays(t, j, k, keys[j], orders, PlanOfRun(t, k), key, after);
    }
    assert RunMoved(t, k, key, after);
  }

  lemma EarlierRunStays(t: Split, j: nat, k: nat, keyJ: Id, orders: map<Id, Order>, p: Id, key: Id, after: map<Id, Order>)
    requires SplitOk(t) && j < k < |t.runs| && t.runs[j].price.Some? && RunMoved(t, j, keyJ, orders)
    requires AreMoved(orders, t.runs[k].ids, key, p, after)
    ensures RunMoved(t, j, keyJ, after)
  {
    forall i | 0 <= i < |t.runs[j].ids| ensures t.runs[j].ids[i] in orders && after[t.runs[j].ids[i]] == orders[t.runs[j].ids[i]] {
      NotInLaterRun(t, j, k, i);
      var id := t.runs[j].ids[i];
      assert id in orders && id !in t.runs[k].ids;
    }
  }

  lemma NotInLaterRun(t: Split, j: nat, k: nat, i: nat)
    requires SplitOk(t) && j < k < |t.runs| && i < |t.runs[j].ids|
    ensures t.runs[j].ids[i] !in t.runs[k].ids
  {
    if t.runs[j].ids[i] in t.runs[k].ids {
      JoinedDistinct(t.runs, j, k, t.runs[j].ids[i]);
    }
  }

  /** All runs are off and the service starts at its new date. */
  lemma SplitEnds(t: Split, keys: seq<Id>, services: map<Id, Service>, orders: map<Id, Order>, after: Db)
    requires SplitOk(t) && |keys| == |t.runs| && InsertedSo(t, keys, services) && MovedSo(t, keys, orders)
    requires after == Db(t.db.plans, services[t.sid := Shifted(t)], orders)
    ensures AllCharged(t) && IsSplit(t, keys, after) && OnlyThese(t.db, {t.sid}, after)
  {
    TailUntouched(t, keys, orders);
    ServicesSplit(t, keys, services);
    OnlyThisSplit(t, keys, services, orders, after);
  }

  lemma TailUntouched(t: Split, keys: seq<Id>, orders: map<Id, Order>)
    requires SplitOk(t) && |keys| == |t.runs| && MovedSo(t, keys, orders)
    ensures forall k | t.first <= k < |t.ids| :: t.ids[k] in orders && orders[t.ids[k]] == t.db.orders[t.ids[k]]
  {
    assert t.runs[..|keys|] == t.runs;
    forall k | t.first <= k < |t.ids| ensures t.ids[k] in orders && orders[t.ids[k]] == t.db.orders[t.ids[k]] {
      TailStays(t, k);
      var o := t.ids[k];
      assert o in t.db.orders;
    }
  }

  lemma ServicesSplit(t: Split, keys: seq<Id>, services: map<Id, Service>)
    requires SplitOk(t) && |keys| == |t.runs| && InsertedSo(t, keys, services)
    ensures var after := services[t.sid := Shifted(t)];
            forall k | 0 <= k < |keys| :: keys[k] in after && after[keys[k]] == Historical(t, k)
  {
  }

  lemma OnlyThisSplit(t: Split, keys: seq<Id>, services: map<Id, Service>, orders: map<Id, Order>, after: Db)
    requires SplitOk(t) && |keys| == |t.runs| && InsertedSo(t, keys, services) && MovedSo(t, keys, orders)
    requires after == Db(t.db.plans, services[t.sid := Shifted(t)], orders)
    ensures OnlyThese(t.db, {t.sid}, after)
  {
    forall o | o in t.db.orders
      ensures orders[o].service != t.db.orders[o].service ==> orders[o].service.Some? && orders[o].service.value !in t.db.services
      ensures !HasServiceIn(t.db.orders[o], {t.sid}) ==> orders[o] == t.db.orders[o]
    {
      OrderAfterSplit(t, keys, orders, o);
    }
    forall i | i in after.services && i !in t.db.services ensures HasOrder(orders, i) {
      var k :| 0 <= k < |keys| && keys[k] == i;
      HistoricalHasOrder(t, k, i, orders);
    }
  }

  lemma TailStays(t: Split, k: nat)
    requires SplitOk(t) && t.first <= k < |t.ids|
    ensures t.ids[k] !in Joined(t.runs)
  {
    forall j | 0 <= j < t.first ensures t.ids[..t.first][j] != t.ids[k] {
      assert t.ids[j] != t.ids[k];
    }
  }

  lemma HistoricalHasOrder(t: Split, k: nat, key: Id, orders: map<Id, Order>)
    requires SplitOk(t) && k < |t.runs| && t.runs[k].price.Some? && RunMoved(t, k, key, orders)
    ensures HasOrder(orders, key)
  {
    var id := t.runs[k].ids[0];
    assert id in orders && orders[id].service == Some(key);
  }

  lemma OrderAfterSplit(t: Split, keys: seq<Id>, orders: map<Id, Order>, o: Id)
    requires SplitOk(t) && |keys| == |t.runs| && MovedSo(t, keys, orders) && o in t.db.orders
    ensures orders[o] == t.db.orders[o] ||
            (t.db.orders[o].service == Some(t.sid) && orders[o].service.Some? && orders[o].service.value in keys)
  {
    assert t.runs[..|keys|] == t.runs;
    if o in Joined(t.runs) {
      JoinedComesFrom(t.runs, o);
      var k :| 0 <= k < |t.runs| && o in t.runs[k].ids;
      assert RunMoved(t, k, keys[k], orders);
      assert o in t.ids;
    }
  }

  ghost predicate AnyCrashes(db: Db, histories: map<Id, seq<Id>>)
    requires HistoriesOf(db, histories)
  {
    exists sid :: sid in histories && Crashes(db, sid, histories[sid])
  }

  lemma RunIsCharged(orders: map<Id, Order>, ids: seq<Id>, price: Option<int>)
    requires ids != [] && Known(orders, ids) && forall j | 0 <= j < |ids| :: orders[ids[j]].total == price
    ensures (forall j | 0 <= j < |ids| :: orders[ids[j]].total.Some?) <==> price.Some?
  {
    assert orders[ids[0]].total == price;
  }

  class HistoryTables {
    var plans: map<Id, Plan>
    var services: map<Id, Service>
    var orders: map<Id, Order>

    function State(): Db
      reads this
    {
      Db(plans, services, orders)
    }

    constructor (db: Db)
      ensures State() == db
    {
      plans, services, orders := db.plans, db.services, db.orders;
    }

    /** Attaches the orders of one run to its historical service; fails on a NULL total. */
    method MoveRun(ids: seq<Id>, key: Id, p: Id) returns (ok: bool)
      requires Known(orders, ids) && Distinct(ids) && AllSingle(orders, ids)
      modifies `orders
      ensures ok <==> forall k | 0 <= k < |ids| :: old(orders)[ids[k]].total.Some?
      ensures ok ==> AreMoved(old(orders), ids, key, p, orders)
    {
      for i := 0 to |ids|
        invariant forall k | 0 <= k < i :: old(orders)[ids[k]].total.Some?
        invariant forall k | i <= k < |ids| :: ids[k] in orders && orders[ids[k]] == old(orders)[ids[k]]
        invariant AreMoved(old(orders), ids[..i], key, p, orders)
      {
        assert ids[i] !in ids[..i];
        assert ids[..i + 1] == ids[..i] + [ids[i]];
        if orders[ids[i]].total.None? {
          return false;
        }
        orders := orders[ids[i] := MovedTo(orders[ids[i]], key, p)];
      }
      assert ids[..|ids|] == ids;
      ok := true;
    }

    /** The historical service of the next run, and its orders; fails on a NULL total. */
    method SplitRun(t: Split, k: nat, ghost keys: seq<Id>) returns (ok: bool, ghost more: seq<Id>)
      requires SplitOk(t) && |keys| == k < |t.runs| && InsertedSo(t, keys, services) && MovedSo(t, keys, orders)
      modifies `services, `orders
      ensures ok <==> t.runs[k].price.Some?
      ensures ok ==> |more| == k + 1 && InsertedSo(t, more, services) && MovedSo(t, more, orders)
    {
      NextRunIsThere(t, keys, orders);
      var key := FreshId(services.Keys);
      InsertOneMore(t, keys, services, key);
      services := services[key := Historical(t, k)];
      ghost var orders0 := orders;
      more := keys;
      RunIsCharged(orders, t.runs[k].ids, t.runs[k].price);
      ok := MoveRun(t.runs[k].ids, key, PlanOfRun(t, k));
      if ok {
        MoveOneMore(t, keys, orders0, key, orders);
        more := keys + [key];
      }
    }

    /** A clean switch: historical services in front, and the service itself from its current price on. */
    method SplitService(t: Split) returns (ok: bool)
      requires SplitOk(t) && t.db == State()
      modifies `services, `orders
      ensures ok <==> AllCharged(t)
      ensures ok ==> WasSplit(t.db, t.sid, t.ids, State()) && OnlyThese(t.db, {t.sid}, State())
    {
      ghost var keys := [];
      for k := 0 to |t.runs|
        invariant |keys| == k && InsertedSo(t, keys, services) && MovedSo(t, keys, orders)
        invariant forall j | 0 <= j < k :: t.runs[j].price.Some?
      {
        var charged;
        charged, keys := SplitRun(t, k, keys);
        if !charged {
          return false;
        }
      }
      ghost var services0 := services;
      services := services[t.sid := Shifted(t)];
      SplitEnds(t, keys, services0, orders, State());
      assert SplitAs(t.db, t.sid, t.ids, t, keys, State());
      ok := true;
    }

    /** Prices the single lines that are off; fails on a NULL amount. */
    method PatchLines(ids: seq<Id>) returns (ok: bool)
      requires Known(orders, ids) && Distinct(ids)
      modifies `orders
      ensures ok <==> forall k | 0 <= k < |ids| :: !LacksAmount(old(orders)[ids[k]])
      ensures ok ==> orders.Keys == old(orders).Keys
      ensures ok ==> forall o | o in old(orders) :: orders[o] == if o in ids then Patched(old(orders)[o]) else old(orders)[o]
    {
      for i := 0 to |ids|
        invariant orders.Keys == old(orders).Keys
        invariant forall k | 0 <= k < i :: !LacksAmount(old(orders)[ids[k]])
        invariant forall k | i <= k < |ids| :: orders[ids[k]] == old(orders)[ids[k]]
        invariant forall o | o in old(orders) :: orders[o] == if o in ids[..i] then Patched(old(orders)[o]) else old(orders)[o]
      {
        assert ids[i] !in ids[..i];
        assert ids[..i + 1] == ids[..i] + [ids[i]];
        var o := orders[ids[i]];
        if SingleLine(o) {
          if LacksAmount(o) {
            return false;
          }
          var units := Units(o.lines[0].quantity);
          if o.total.value != o.lines[0].price.value * units {
            orders := orders[ids[i] := o.(lines := [o.lines[0].(price := Some(o.total.value / units))])];
          }
        }
      }
      assert ids[..|ids|] == ids;
      ok := true;
    }

    /** One affected service; fails where Python raises. */
    method RepairService(sid: Id, ids: seq<Id>) returns (ok: bool)
      requires sid in services && IsHistory(orders, sid, ids)
      modifies `services, `orders
      ensures ok <==> !Crashes(old(State()), sid, ids)
      ensures ok ==> ServiceRepaired(old(State()), sid, ids, State()) && OnlyThese(old(State()), {sid}, State())
    {
      var db := State();
      if services[sid].plan !in plans {
        return true;
      }
      var price := plans[services[sid].plan].price;
      var first := FirstAt(orders, ids, price);
      if Switches(orders, ids, price) {
        var runs := BuildRuns(orders, ids[..first]);
        PlannedByRun(db, services[sid].company, runs, ids[..first]);
        if RunsPlanned(State(), services[sid].company, runs) {
          var t := Split(db, sid, ids, first, runs);
          ChargedIff(t);
          ok := SplitService(t);
          return;
        }
      }
      ok := PatchLines(ids);
      if ok {
        PatchedIsRepaired(db, sid, ids, State());
      }
    }

    /** The loop over the affected services. */
    method RepairAll(histories: map<Id, seq<Id>>) returns (ok: bool)
      requires HistoriesOf(State(), histories) && histories.Keys == Affected(State())
      modifies `services, `orders
      ensures ok <==> !AnyCrashes(old(State()), histories)
      ensures ok ==> Repaired(old(State()), histories, State())
    {
      ghost var db := State();
      var left := histories.Keys;
      ghost var done := {};
      while left != {}
        invariant Splits(histories.Keys, left, done)
        invariant RepairedSo(db, histories, done, State())
        decreases |left|
      {
        NonEmpty(left);
        var sid :| sid in left;
        ghost var now := State();
        AgreeSoFar(db, histories, done, now, sid);
        AgreeOnClean(db, now, sid, histories[sid]);
        ok := RepairService(sid, histories[sid]);
        if !ok {
          return;
        }
        RepairOneMore(db, histories, done, now, sid, State());
        OneLess(histories.Keys, left, done, sid);
        left, done := left - {sid}, done + {sid};
      }
      assert done == histories.Keys;
      ok := true;
    }

    /** The loop and the final count; an error rolls everything back. */
    method Repair(histories: map<Id, seq<Id>>) returns (error: Option<RepairError>)
      requires HistoriesOf(State(), histories) && histories.Keys == Affected(State())
      modifies `services, `orders
      ensures error.Some? ==> State() == old(State())
      ensures error == Some(AmountIsNull) <==> AnyCrashes(old(State()), histories)
      ensures error.None? ==> Repaired(old(State()), histories, State()) && NoneRemain(State())
      ensures error.None? <==> AllWillMatch(old(State()), histories) && !AnyCrashes(old(State()), histories)
    {
      var db := State();
      var ok := RepairAll(histories);
      if !ok {
        services, orders := db.services, db.orders;
        return Some(AmountIsNull);
      }
      FinalCheckPassesIff(db, histories, State());
      if exists o :: o in orders && SingleLine(orders[o]) && !Matches(orders[o]) {
        services, orders := db.services, db.orders;
        error := Some(LinesRemainOff);
      } else {
        error := None;
      }
    }
  }

  lemma PatchedIsRepaired(db: Db, sid: Id, ids: seq<Id>, after: Db)
    requires sid in db.services && IsHistory(db.orders, sid, ids) && db.services[sid].plan in db.plans
    requires !Clean(db, db.services[sid], ids) && forall k | 0 <= k < |ids| :: !LacksAmount(db.orders[ids[k]])
    requires after == db.(orders := after.orders) && after.orders.Keys == db.orders.Keys
    requires forall o | o in db.orders :: after.orders[o] == if o in ids then Patched(db.orders[o]) else db.orders[o]
    ensures ServiceRepaired(db, sid, ids, after) && OnlyThese(db, {sid}, after)
  {
    forall k | 0 <= k < |ids| ensures ids[k] in after.orders && after.orders[ids[k]] == Patched(db.orders[ids[k]]) {
      var o := ids[k];
      assert o in db.orders && o in ids;
    }
    forall o | o in db.orders ensures after.orders[o].service == db.orders[o].service {
    }
  }

  /** Service `sid` is as it was until its turn. */
  lemma AgreeSoFar(db: Db, histories: map<Id, seq<Id>>, done: set<Id>, now: Db, sid: Id)
    requires HistoriesOf(db, histories) && done <= histories.Keys && RepairedSo(db, histories, done, now)
    requires sid in histories && sid !in done
    ensures Agree(db, now, sid, histories[sid])
  {
    var ids := histories[sid];
    forall k | 0 <= k < |ids| ensures ids[k] in now.orders && now.orders[ids[k]] == db.orders[ids[k]] {
      HistoryHolds(db.orders, sid, ids, k);
      RowStays(db, done, now, ids[k]);
    }
    forall o | o in now.orders ensures now.orders[o].service == Some(sid) <==> o in ids {
      if o in ids {
        var k :| 0 <= k < |ids| && ids[k] == o;
      }
    }
  }

  lemma RepairOneMore(db: Db, histories: map<Id, seq<Id>>, done: set<Id>, now: Db, sid: Id, after: Db)
    requires HistoriesOf(db, histories) && done <= histories.Keys && RepairedSo(db, histories, done, now)
    requires sid in histories && sid !in done && sid in now.services && Known(now.orders, histories[sid])
    requires ServiceRepaired(now, sid, histories[sid], after) && OnlyThese(now, {sid}, after)
    requires !Crashes(db, sid, histories[sid])
    ensures RepairedSo(db, histories, done + {sid}, after)
  {
    AgreeSoFar(db, histories, done, now, sid);
    AgreeOnRepair(db, now, sid, histories[sid], after);
    forall other | other in done ensures ServiceRepaired(db, other, histories[other], after) {
      RepairStays(db, other, histories[other], now, sid, after);
    }
    OnlyTheseAddsUp(db, done, now, sid, after);
  }

  lemma OnlyTheseAddsUp(db: Db, done: set<Id>, now: Db, sid: Id, after: Db)
    requires sid in db.services && OnlyThese(db, done, now) && OnlyThese(now, {sid}, after)
    ensures OnlyThese(db, done + {sid}, after)
  {
    forall i | i in after.services && i !in db.services ensures HasOrder(after.orders, i) {
      if i in now.services {
        var o :| o in now.orders && now.orders[o].service == Some(i);
        assert !HasServiceIn(now.orders[o], {sid});
      }
    }
    forall o | o in db.orders && !HasServiceIn(db.orders[o], done + {sid}) ensures after.orders[o] == db.orders[o] {
      assert !HasServiceIn(db.orders[o], done);
      assert !HasServiceIn(now.orders[o], {sid});
    }
  }

  lemma RowStays(db: Db, done: set<Id>, after: Db, o: Id)
    requires OnlyThese(db, done, after) && o in db.orders && !HasServiceIn(db.orders[o], done)
    ensures o in after.orders && after.orders[o] == db.orders[o]
  {
  }

  /** Patching does not move an order. */
  lemma RepairedOrderStays(db: Db, sid: Id, ids: seq<Id>, after: Db, i: nat)
    requires sid in db.services && IsHistory(db.orders, sid, ids) && ServiceRepaired(db, sid, ids, after) && i < |ids|
    requires db.services[sid].plan in db.plans ==> !Clean(db, db.services[sid], ids)
    ensures ids[i] in after.orders && after.orders[ids[i]].service == Some(sid)
  {
    HistoryHolds(db.orders, sid, ids, i);
  }

  /** Repairing one service leaves the others repaired. */
  lemma RepairStays(db: Db, other: Id, ids: seq<Id>, now: Db, sid: Id, after: Db)
    requires other in db.services && sid in db.services && sid != other && IsHistory(db.orders, other, ids)
    requires ServiceRepaired(db, other, ids, now) && OnlyThese(now, {sid}, after)
    ensures ServiceRepaired(db, other, ids, after)
  {
    var s := db.services[other];
    if s.plan in db.plans && Clean(db, s, ids) {
      var t, keys :| SplitAs(db, other, ids, t, keys, now);
      SplitStays(t, keys, now, sid, after);
      assert SplitAs(db, other, ids, t, keys, after);
    } else {
      forall k | 0 <= k < |ids| ensures ids[k] in after.orders && after.orders[ids[k]] == now.orders[ids[k]] {
        RepairedOrderStays(db, other, ids, now, k);
        RowStays(now, {sid}, after, ids[k]);
      }
    }
  }

  lemma SplitStays(t: Split, keys: seq<Id>, now: Db, sid: Id, after: Db)
    requires SplitOk(t) && AllCharged(t) && IsSplit(t, keys, now) && OnlyThese(now, {sid}, after)
    requires sid in t.db.services && sid != t.sid
    ensures IsSplit(t, keys, after)
  {
    forall k | 0 <= k < |keys| ensures RunMoved(t, k, keys[k], after.orders) {
      MovedRunStays(t, k, keys[k], now, sid, after);
    }
    forall k | t.first <= k < |t.ids| ensures t.ids[k] in after.orders && after.orders[t.ids[k]] == t.db.orders[t.ids[k]] {
      HistoryHolds(t.db.orders, t.sid, t.ids, k);
      assert !HasServiceIn(now.orders[t.ids[k]], {sid});
    }
  }

  lemma MovedRunStays(t: Split, k: nat, key: Id, now: Db, sid: Id, after: Db)
    requires SplitOk(t) && k < |t.runs| && t.runs[k].price.Some? && RunMoved(t, k, key, now.orders)
    requires OnlyThese(now, {sid}, after) && key != sid
    ensures RunMoved(t, k, key, after.orders)
  {
    forall j | 0 <= j < |t.runs[k].ids|
      ensures t.runs[k].ids[j] in after.orders && after.orders[t.runs[k].ids[j]] == now.orders[t.runs[k].ids[j]]
    {
      var o := t.runs[k].ids[j];
      assert o in now.orders && !HasServiceIn(now.orders[o], {sid});
    }
  }
}
