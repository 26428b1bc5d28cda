/**
 The tree of inventory items and the row triggers that guard it
 (alembic/versions/ng1_network_graph.py).

 The table is a map from id to row. A trigger runs BEFORE its row changes, so it reads the
 table as it is then; a statement that touches several rows is a sequence of such steps.
 */
module PlantGraph {
  import opened Common

  const MAX_PATH_DEPTH: nat := 32

  datatype Item = Item(company: Id, parent: Option<Id>, attached: bool)
  type Items = map<Id, Item>

  datatype GraphError =
    | SelfParent | ParentNotFound | CrossTenant | ParentDetached | Cycle | TooDeep
    | HasChildren | CheckParentAttached | DuplicateKey | RestrictParent

  /* ---------- Ancestry ---------- */

  /** The node `k` steps above `x`, if the chain is that long. */
  function Ancestor(items: Items, x: Id, k: nat): Option<Id>
    decreases k
  {
    if x !in items then None
    else if k == 0 then Some(x)
    else if items[x].parent.None? then None
    else Ancestor(items, items[x].parent.value, k - 1)
  }

  /** The chain from `x` up has at most `n` nodes and ends in a root of the table. */
  ghost predicate Rooted(items: Items, x: Id, n: nat)
    decreases n
  {
    n > 0 && x in items && (items[x].parent.Some? ==> Rooted(items, items[x].parent.value, n - 1))
  }

  ghost predicate Acyclic(items: Items) {
    forall x | x in items :: exists n: nat :: Rooted(items, x, n)
  }

  /** Every chain has at most `bound` nodes. */
  ghost predicate AllWithin(items: Items, bound: nat) {
    forall x | x in items :: Rooted(items, x, bound)
  }

  /** `x` is on the chain of `y`. */
  ghost predicate OnChain(items: Items, y: Id, x: Id) {
    exists k: nat :: Ancestor(items, y, k) == Some(x)
  }

  predicate HasChild(items: Items, x: Id) {
    exists y :: y in items && items[y].parent == Some(x)
  }

  /** What must hold between a row and the row it hangs from. */
  predicate EdgeOk(items: Items, x: Id)
    requires x in items
  {
    items[x].parent.Some? ==>
      var p := items[x].parent.value;
      && p != x
      && items[x].attached
      && p in items
      && items[p].company == items[x].company
      && items[p].attached
  }

  ghost predicate EdgesOk(items: Items) {
    forall x | x in items :: EdgeOk(items, x)
  }

  ghost predicate PlantOk(items: Items) {
    EdgesOk(items) && Acyclic(items)
  }

  lemma RootedMonotone(items: Items, x: Id, m: nat, n: nat)
    requires Rooted(items, x, m) && m <= n
    ensures Rooted(items, x, n)
    decreases m
  {
    if items[x].parent.Some? {
      RootedMonotone(items, items[x].parent.value, m - 1, n - 1);
    }
  }

  lemma {:induction false} AncestorCompose(items: Items, x: Id, j: nat, k: nat)
    requires Ancestor(items, x, j).Some?
    ensures Ancestor(items, x, j + k) == Ancestor(items, Ancestor(items, x, j).value, k)
    decreases j
  {
    if j > 0 {
      AncestorCompose(items, items[x].parent.value, j - 1, k);
    }
  }

  lemma {:induction false} RootedAbove(items: Items, x: Id, k: nat, n: nat)
    requires Rooted(items, x, n) && Ancestor(items, x, k).Some?
    ensures k < n && Rooted(items, Ancestor(items, x, k).value, n - k)
    decreases k
  {
    if k > 0 {
      RootedAbove(items, items[x].parent.value, k - 1, n - 1);
    }
  }

  lemma {:induction false} NotOwnAncestor(items: Items, x: Id, k: nat, n: nat)
    requires Rooted(items, x, n) && k > 0
    ensures Ancestor(items, x, k) != Some(x)
    decreases n
  {
    if Ancestor(items, x, k) == Some(x) {
      RootedAbove(items, x, k, n);
      NotOwnAncestor(items, x, k, n - k);
    }
  }

  /** `y` was met in the first `k` steps up from `start`. */
  ghost predicate Visited(items: Items, start: Id, k: nat, y: Id) {
    exists j: nat :: j < k && Ancestor(items, start, j) == Some(y)
  }

  /** Climbing from `start`, `left` being what has not been visited yet: the climb must end. */
  lemma {:induction false} ClimbEnds(items: Items, start: Id, k: nat, left: set<Id>)
    requires EdgesOk(items)
    requires NoSelfAncestor(items)
    requires Ancestor(items, start, k).Some?
    requires forall y | y in items && y !in left :: Visited(items, start, k, y)
    ensures Rooted(items, Ancestor(items, start, k).value, |left|)
    decreases left
  {
    var x := Ancestor(items, start, k).value;
    AncestorInTable(items, start, k);
    if x !in left {
      var j: nat :| j < k && Ancestor(items, start, j) == Some(x);
      AncestorCompose(items, start, j, k - j);
      assert false;
    }
    if items[x].parent.Some? {
      AncestorCompose(items, start, k, 1);
      forall y | y in items && y !in left - {x}
        ensures Visited(items, start, k + 1, y)
      {
        if y == x {
          assert Ancestor(items, start, k) == Some(y);
        } else {
          var j: nat :| j < k && Ancestor(items, start, j) == Some(y);
          assert j < k + 1;
        }
      }
      ClimbEnds(items, start, k + 1, left - {x});
    }
  }

  lemma {:induction false} AncestorInTable(items: Items, x: Id, k: nat)
    requires Ancestor(items, x, k).Some?
    ensures Ancestor(items, x, k).value in items
    decreases k
  {
    if k > 0 {
      AncestorInTable(items, items[x].parent.value, k - 1);
    }
  }

  ghost predicate NoSelfAncestor(items: Items) {
    forall x, k: nat | k > 0 :: Ancestor(items, x, k) != Some(x)
  }

  /** Chains all end exactly when no node is its own ancestor. */
  lemma AcyclicIffNoSelfAncestor(items: Items)
    requires EdgesOk(items)
    ensures Acyclic(items) <==> NoSelfAncestor(items)
  {
    if Acyclic(items) {
      forall x, k: nat | k > 0 ensures Ancestor(items, x, k) != Some(x) {
        if x in items {
          var n: nat :| Rooted(items, x, n);
          NotOwnAncestor(items, x, k, n);
        }
      }
    }
    if NoSelfAncestor(items) {
      forall x | x in items ensures exists n: nat :: Rooted(items, x, n) {
        assert Ancestor(items, x, 0) == Some(x);
        ClimbEnds(items, x, 0, items.Keys);
      }
    }
  }

  /** The whole ancestry of a node belongs to its company, and is attached as soon as there is any. */
  lemma {:induction false} ChainIsOneCompanyAndAttached(items: Items, x: Id, k: nat)
    requires EdgesOk(items) && x in items
    requires Ancestor(items, x, k).Some?
    ensures var a := Ancestor(items, x, k).value;
            && a in items
            && items[a].company == items[x].company
            && (k > 0 ==> items[x].attached && items[a].attached)
    decreases k
  {
    if k > 0 {
      ChainIsOneCompanyAndAttached(items, items[x].parent.value, k - 1);
    }
  }

  /* ---------- The bounded walk of the guard ---------- */

  /** How many rows the recursive query returns: one per level, at most `fuel`, never leaving `company`. */
  function Depth(items: Items, company: Id, cur: Option<Id>, fuel: nat): nat
    decreases fuel
  {
    if fuel == 0 || cur.None? || cur.value !in items || items[cur.value].company != company then 0
    else 1 + Depth(items, company, items[cur.value].parent, fuel - 1)
  }

  /** Whether one of those rows is `target`. */
  predicate Meets(items: Items, company: Id, cur: Option<Id>, target: Id, fuel: nat)
    decreases fuel
  {
    && fuel > 0 && cur.Some? && cur.value in items && items[cur.value].company == company
    && (cur.value == target || Meets(items, company, items[cur.value].parent, target, fuel - 1))
  }

  /** The recursive query, level by level. */
  method AncestorWalk(items: Items, company: Id, start: Id, target: Id) returns (cycleFound: bool, deepest: nat)
    ensures cycleFound == Meets(items, company, Some(start), target, MAX_PATH_DEPTH)
    ensures deepest == Depth(items, company, Some(start), MAX_PATH_DEPTH)
  {
    cycleFound, deepest := false, 0;
    var cur := Some(start);
    while deepest < MAX_PATH_DEPTH && cur.Some? && cur.value in items && items[cur.value].company == company
      invariant deepest <= MAX_PATH_DEPTH
      invariant Depth(items, company, Some(start), MAX_PATH_DEPTH) ==
                deepest + Depth(items, company, cur, MAX_PATH_DEPTH - deepest)
      invariant Meets(items, company, Some(start), target, MAX_PATH_DEPTH) ==
                (cycleFound || Meets(items, company, cur, target, MAX_PATH_DEPTH - deepest))
      decreases MAX_PATH_DEPTH - deepest
    {
      cycleFound := cycleFound || cur.value == target;
      deepest := deepest + 1;
      cur := items[cur.value].parent;
    }
  }

  /** The verdict of `inventory_item_graph_guard` on a new row; None lets the row through. */
  function GuardVerdict(items: Items, id: Id, row: Item): Option<GraphError> {
    if row.parent.None? then None
    else
      var p := row.parent.value;
      if p == id then Some(SelfParent)
      else if p !in items then Some(ParentNotFound)
      else if items[p].company != row.company then Some(CrossTenant)
      else if !items[p].attached then Some(ParentDetached)
      else if Meets(items, row.company, Some(p), id, MAX_PATH_DEPTH) then Some(Cycle)
      else if Depth(items, row.company, Some(p), MAX_PATH_DEPTH) >= MAX_PATH_DEPTH then Some(TooDeep)
      else None
  }

  method GraphGuard(items: Items, id: Id, row: Item) returns (verdict: Option<GraphError>)
    ensures verdict == GuardVerdict(items, id, row)
  {
    if row.parent.None? {
      return None;
    }
    var p := row.parent.value;
    if p == id {
      return Some(SelfParent);
    }
    if p !in items {
      return Some(ParentNotFound);
    }
    if items[p].company != row.company {
      return Some(CrossTenant);
    }
    if !items[p].attached {
      return Some(ParentDetached);
    }
    var cycleFound, deepest := AncestorWalk(items, row.company, p, id);
    if cycleFound {
      return Some(Cycle);
    }
    if deepest >= MAX_PATH_DEPTH {
      return Some(TooDeep);
    }
    return None;
  }

  /** A walk that stops short of its bound stopped at a root, so it saw every ancestor there is. */
  lemma {:induction false} ShortWalkIsComplete(items: Items, company: Id, x: Id, target: Id, fuel: nat)
    requires EdgesOk(items) && x in items && items[x].company == company
    requires Depth(items, company, Some(x), fuel) < fuel
    ensures Rooted(items, x, Depth(items, company, Some(x), fuel))
    ensures Meets(items, company, Some(x), target, fuel) <==> OnChain(items, x, target)
    decreases fuel
  {
    if x == target {
      assert Ancestor(items, x, 0) == Some(target);
    }
    if items[x].parent.Some? {
      var p := items[x].parent.value;
      ShortWalkIsComplete(items, company, p, target, fuel - 1);
      if OnChain(items, p, target) {
        var k: nat :| Ancestor(items, p, k) == Some(target);
        assert Ancestor(items, x, k + 1) == Some(target);
      }
      if x != target && OnChain(items, x, target) {
        var k: nat :| Ancestor(items, x, k) == Some(target);
        assert Ancestor(items, p, k - 1) == Some(target);
      }
    } else {
      assert forall k: nat :: k > 0 ==> Ancestor(items, x, k) == None;
    }
  }

  /** A chain of at most `n` nodes is walked to its end by any larger bound. */
  lemma {:induction false} RootedIsShort(items: Items, company: Id, x: Id, n: nat, fuel: nat)
    requires Rooted(items, x, n) && n < fuel
    ensures Depth(items, company, Some(x), fuel) <= n
    decreases n
  {
    if items[x].parent.Some? {
      RootedIsShort(items, company, items[x].parent.value, n - 1, fuel - 1);
    }
  }

  /** Exactly which parents the guard accepts, in any plant, however deep it already is. */
  lemma GuardAcceptsIff(items: Items, id: Id, row: Item)
    requires PlantOk(items) && row.parent.Some?
    ensures GuardVerdict(items, id, row) == None <==>
            var p := row.parent.value;
            && p in items
            && items[p].company == row.company
            && items[p].attached
            && !OnChain(items, p, id)
            && p != id
            && Rooted(items, p, MAX_PATH_DEPTH - 1)
  {
    var p := row.parent.value;
    if p in items && items[p].company == row.company {
      if Depth(items, row.company, Some(p), MAX_PATH_DEPTH) < MAX_PATH_DEPTH {
        ShortWalkIsComplete(items, row.company, p, id, MAX_PATH_DEPTH);
        RootedMonotone(items, p, Depth(items, row.company, Some(p), MAX_PATH_DEPTH), MAX_PATH_DEPTH - 1);
      } else if Rooted(items, p, MAX_PATH_DEPTH - 1) {
        RootedIsShort(items, row.company, p, MAX_PATH_DEPTH - 1, MAX_PATH_DEPTH);
      }
    }
  }

  /** `x` has a `k`-th ancestor, and it belongs to `company`. */
  predicate ClimbsWithin(items: Items, company: Id, x: Id, k: nat) {
    var a := Ancestor(items, x, k);
    a.Some? && a.value in items && items[a.value].company == company
  }

  lemma {:induction false} EndlessWalkFillsItsBound(items: Items, company: Id, x: Id, n: nat)
    requires forall k: nat :: ClimbsWithin(items, company, x, k)
    ensures Depth(items, company, Some(x), n) == n
    decreases n
  {
    assert ClimbsWithin(items, company, x, 0);
    if n > 0 {
      assert ClimbsWithin(items, company, x, 1);
      forall k: nat ensures ClimbsWithin(items, company, items[x].parent.value, k) {
        assert ClimbsWithin(items, company, x, k + 1);
      }
      EndlessWalkFillsItsBound(items, company, items[x].parent.value, n - 1);
    }
  }

  /** In any table, even one that already holds a cycle inside the company, nothing can be hung below that cycle. */
  lemma CycleTakesNoChildren(items: Items, id: Id, row: Item)
    requires row.parent.Some?
    requires forall k: nat :: ClimbsWithin(items, row.company, row.parent.value, k)
    ensures GuardVerdict(items, id, row).Some?
  {
    EndlessWalkFillsItsBound(items, row.company, row.parent.value, MAX_PATH_DEPTH);
  }

  /** A cycle through another company ends the walk at the boundary, and takes children. */
  lemma CycleAcrossCompaniesTakesChildren()
    ensures var items := map[1 := Item(7, Some(2), true), 2 := Item(8, Some(1), true)];
            Ancestor(items, 1, 2) == Some(1) && InsertItem(items, 3, Item(7, Some(1), true)).Ok?
  {
    var items := map[1 := Item(7, Some(2), true), 2 := Item(8, Some(1), true)];
    assert Ancestor(items, 1, 2) == Ancestor(items, 2, 1) == Ancestor(items, 1, 0);
    assert Depth(items, 7, Some(2), MAX_PATH_DEPTH - 1) == 0;
    assert Depth(items, 7, Some(1), MAX_PATH_DEPTH) == 1;
    assert !Meets(items, 7, Some(2), 3, MAX_PATH_DEPTH - 1);
    assert !Meets(items, 7, Some(1), 3, MAX_PATH_DEPTH);
  }

  /* ---------- Statements on the table ---------- */

  /** INSERT: the graph guard, then the CHECKs, then the primary key. */
  function InsertItem(items: Items, id: Id, row: Item): Result<Items, GraphError> {
    var verdict := GuardVerdict(items, id, row);
    if verdict.Some? then Err(verdict.value)
    else if row.parent.Some? && !row.attached then Err(CheckParentAttached)
    else if id in items then Err(DuplicateKey)
    else Ok(items[id := row])
  }

  /** UPDATE of `parent_id` and `network_attached`; an absent column is not in the SET list. */
  function UpdateItem(items: Items, id: Id, parent: Option<Option<Id>>, attached: Option<bool>): Result<Items, GraphError> {
    if id !in items then Ok(items)
    else
      var before := items[id];
      var row := Item(before.company,
                      if parent.Some? then parent.value else before.parent,
                      if attached.Some? then attached.value else before.attached);
      var verdict := if parent.Some? then GuardVerdict(items, id, row) else None;
      if attached.Some? && before.attached && !row.attached && HasChild(items, id) then Err(HasChildren)
      else if verdict.Some? then Err(verdict.value)
      else if row.parent.Some? && !row.attached then Err(CheckParentAttached)
      else Ok(items[id := row])
  }

  /** DELETE of one row, with the RESTRICT key on `parent_id`. */
  function DeleteItem(items: Items, id: Id): Result<Items, GraphError> {
    if id !in items then Ok(items)
    else if HasChild(items, id) then Err(RestrictParent)
    else Ok(items - {id})
  }

  /* ---------- Every statement keeps the plant ---------- */

  /** A chain that misses `id` is untouched by a change of row `id`. */
  lemma {:induction false} OtherChainsKept(items: Items, id: Id, row: Item, y: Id, n: nat)
    requires Rooted(items, y, n) && !OnChain(items, y, id)
    ensures Rooted(items[id := row], y, n)
    decreases n
  {
    assert Ancestor(items, y, 0) == Some(y);
    if items[y].parent.Some? {
      var p := items[y].parent.value;
      forall k: nat ensures Ancestor(items, p, k) != Some(id) {
        assert Ancestor(items, y, k + 1) == Ancestor(items, p, k);
      }
      OtherChainsKept(items, id, row, p, n - 1);
    }
  }

  /** A chain that reaches `id` after `k` steps continues with the new chain of `id`. */
  lemma {:induction false} ChainThroughChanged(items: Items, id: Id, row: Item, y: Id, k: nat, m: nat)
    requires Ancestor(items, y, k) == Some(id)
    requires Rooted(items[id := row], id, m)
    ensures Rooted(items[id := row], y, k + m)
    decreases k
  {
    if y == id {
      RootedMonotone(items[id := row], id, m, k + m);
    } else {
      ChainThroughChanged(items, id, row, items[y].parent.value, k - 1, m);
    }
  }

  /** Re-parenting `id` onto an accepted parent: the new chain of `id` has at most 32 nodes. */
  lemma MovedNodeWithinBound(items: Items, id: Id, row: Item)
    requires PlantOk(items) && GuardVerdict(items, id, row) == None
    ensures Rooted(items[id := row], id, MAX_PATH_DEPTH)
  {
    if row.parent.Some? {
      GuardAcceptsIff(items, id, row);
      OtherChainsKept(items, id, row, row.parent.value, MAX_PATH_DEPTH - 1);
    }
  }

  lemma PutKeepsAcyclic(items: Items, id: Id, row: Item)
    requires PlantOk(items)
    requires GuardVerdict(items, id, row) == None || (id in items && row.parent == items[id].parent)
    ensures Acyclic(items[id := row])
  {
    var items' := items[id := row];
    var m: nat;
    if GuardVerdict(items, id, row) == None {
      MovedNodeWithinBound(items, id, row);
      m := MAX_PATH_DEPTH;
    } else {
      m :| Rooted(items, id, m);
      SameParentSameChain(items, id, row, id, m);
    }
    forall y | y in items' ensures exists n: nat :: Rooted(items', y, n) {
      if y == id {
      } else if OnChain(items, y, id) {
        var k: nat :| Ancestor(items, y, k) == Some(id);
        ChainThroughChanged(items, id, row, y, k, m);
      } else {
        var n: nat :| Rooted(items, y, n);
        OtherChainsKept(items, id, row, y, n);
      }
    }
  }

  lemma {:induction false} SameParentSameChain(items: Items, id: Id, row: Item, y: Id, n: nat)
    requires id in items && row.parent == items[id].parent && Rooted(items, y, n)
    ensures Rooted(items[id := row], y, n)
    decreases n
  {
    if items[y].parent.Some? {
      SameParentSameChain(items, id, row, items[y].parent.value, n - 1);
    }
  }

  lemma InsertKeepsPlant(items: Items, id: Id, row: Item)
    requires PlantOk(items) && InsertItem(items, id, row).Ok?
    ensures PlantOk(InsertItem(items, id, row).value)
  {
    PutKeepsAcyclic(items, id, row);
  }

  lemma UpdateKeepsPlant(items: Items, id: Id, parent: Option<Option<Id>>, attached: Option<bool>)
    requires PlantOk(items) && UpdateItem(items, id, parent, attached).Ok?
    ensures PlantOk(UpdateItem(items, id, parent, attached).value)
  {
    var items' := UpdateItem(items, id, parent, attached).value;
    if id in items {
      var row := items'[id];
      assert items' == items[id := row];
      PutKeepsAcyclic(items, id, row);
      forall x | x in items' ensures EdgeOk(items', x) {
        assert x in items && EdgeOk(items, x) && EdgeOk(items, id);
        if items[x].parent == Some(id) {
          assert HasChild(items, id);
        }
      }
    }
  }

  lemma DeleteKeepsPlant(items: Items, id: Id)
    requires PlantOk(items) && DeleteItem(items, id).Ok?
    ensures PlantOk(DeleteItem(items, id).value)
  {
    var items' := DeleteItem(items, id).value;
    if id in items {
      forall x | x in items' ensures EdgeOk(items', x) {
        assert x in items && EdgeOk(items, x);
        assert items[x].parent != Some(id);
      }
      forall x | x in items' ensures exists n: nat :: Rooted(items', x, n) {
        var n: nat :| Rooted(items, x, n);
        DeleteKeepsChain(items, id, x, n);
      }
    }
  }

  lemma {:induction false} DeleteKeepsChain(items: Items, id: Id, x: Id, n: nat)
    requires !HasChild(items, id) && x != id && Rooted(items, x, n)
    ensures Rooted(items - {id}, x, n)
    decreases n
  {
    if items[x].parent.Some? {
      DeleteKeepsChain(items, id, items[x].parent.value, n - 1);
    }
  }

  /* ---------- How deep the plant can get ---------- */

  /** No node hangs `height` or more steps below `id` (1 for a leaf). */
  ghost predicate SubtreeWithin(items: Items, id: Id, height: nat) {
    forall y, k: nat | Ancestor(items, y, k) == Some(id) :: k < height
  }

  /** Moving a subtree of that height keeps every chain within the old bound or 31 + height. */
  lemma MoveDepth(items: Items, id: Id, row: Item, bound: nat, height: nat)
    requires PlantOk(items) && AllWithin(items, bound)
    requires GuardVerdict(items, id, row) == None
    requires SubtreeWithin(items, id, height) && height > 0
    ensures AllWithin(items[id := row], if bound < 31 + height then 31 + height else bound)
  {
    var items' := items[id := row];
    var b := if bound < 31 + height then 31 + height else bound;
    MovedNodeWithinBound(items, id, row);
    forall y | y in items' ensures Rooted(items', y, b) {
      if y == id {
        RootedMonotone(items', id, MAX_PATH_DEPTH, b);
      } else if OnChain(items, y, id) {
        var k: nat :| Ancestor(items, y, k) == Some(id);
        ChainThroughChanged(items, id, row, y, k, MAX_PATH_DEPTH);
        RootedMonotone(items', y, k + MAX_PATH_DEPTH, b);
      } else {
        OtherChainsKept(items, id, row, y, bound);
        RootedMonotone(items', y, bound, b);
      }
    }
  }

  /** What hangs `k` steps below `id` fits the bound below the new parent. */
  ghost predicate FitsBelow(items: Items, parent: Id, k: nat, bound: nat) {
    k + 1 <= bound && Rooted(items, parent, bound - k - 1)
  }

  ghost predicate SubtreeFits(items: Items, id: Id, parent: Id, bound: nat) {
    forall y, k: nat | Ancestor(items, y, k) == Some(id) :: FitsBelow(items, parent, k, bound)
  }

  /** An accepted move keeps a bound exactly when the new parent leaves room for the whole subtree. */
  lemma MoveKeepsBoundIff(items: Items, id: Id, row: Item, bound: nat)
    requires PlantOk(items) && AllWithin(items, bound)
    requires id in items && row.parent.Some? && GuardVerdict(items, id, row) == None
    ensures AllWithin(items[id := row], bound) <==> SubtreeFits(items, id, row.parent.value, bound)
  {
    var items' := items[id := row];
    if AllWithin(items', bound) {
      forall y, k: nat | Ancestor(items, y, k) == Some(id) ensures FitsBelow(items, row.parent.value, k, bound) {
        RoomIsNeeded(items, id, row, bound, y, k);
      }
    }
    if SubtreeFits(items, id, row.parent.value, bound) {
      forall y | y in items' ensures Rooted(items', y, bound) {
        if y == id || OnChain(items, y, id) {
          assert Ancestor(items, id, 0) == Some(id);
          var k: nat :| Ancestor(items, y, k) == Some(id);
          RoomIsEnough(items, id, row, bound, y, k);
        } else {
          OtherChainsKept(items, id, row, y, bound);
        }
      }
    }
  }

  lemma RoomIsEnough(items: Items, id: Id, row: Item, bound: nat, y: Id, k: nat)
    requires PlantOk(items) && row.parent.Some? && GuardVerdict(items, id, row) == None
    requires Ancestor(items, y, k) == Some(id) && FitsBelow(items, row.parent.value, k, bound)
    ensures Rooted(items[id := row], y, bound)
  {
    GuardAcceptsIff(items, id, row);
    OtherChainsKept(items, id, row, row.parent.value, bound - k - 1);
    ChainThroughChanged(items, id, row, y, k, bound - k);
  }

  lemma RoomIsNeeded(items: Items, id: Id, row: Item, bound: nat, y: Id, k: nat)
    requires PlantOk(items) && id in items && row.parent.Some? && GuardVerdict(items, id, row) == None
    requires AllWithin(items[id := row], bound) && Ancestor(items, y, k) == Some(id)
    ensures FitsBelow(items, row.parent.value, k, bound)
  {
    var items', p := items[id := row], row.parent.value;
    GuardAcceptsIff(items, id, row);
    AncestorInTable(items, y, k);
    var n: nat :| Rooted(items, y, n);
    AncestorKept(items, id, row, y, k, n);
    RootedAbove(items', y, k, bound);
    assert Rooted(items', p, bound - k - 1);
    PutKeepsAcyclic(items, id, row);
    var m: nat :| Rooted(items', id, m);
    forall j: nat ensures Ancestor(items', p, j) != Some(id) {
      NotOwnAncestor(items', id, j + 1, m);
    }
    OtherChainsKept(items', id, items[id], p, bound - k - 1);
    assert items'[id := items[id]] == items;
  }

  /** The chain up to `id` does not depend on the row of `id`. */
  lemma {:induction false} AncestorKept(items: Items, id: Id, row: Item, y: Id, k: nat, n: nat)
    requires Rooted(items, y, n) && Ancestor(items, y, k) == Some(id)
    ensures Ancestor(items[id := row], y, k) == Some(id)
    decreases k
  {
    if k > 0 {
      NotOwnAncestor(items, y, k, n);
      AncestorKept(items, id, row, items[y].parent.value, k - 1, n - 1);
    }
  }

  /** Inserts and moves of leaves therefore never take a plant past 32. */
  lemma LeafMovesStayWithin32(items: Items, id: Id, row: Item)
    requires PlantOk(items) && AllWithin(items, MAX_PATH_DEPTH)
    requires GuardVerdict(items, id, row) == None && !HasChild(items, id)
    ensures AllWithin(items[id := row], MAX_PATH_DEPTH)
  {
    forall y, k: nat | Ancestor(items, y, k) == Some(id) ensures k < 1 {
      if k > 0 {
        AncestorCompose(items, y, k, 0);
        LastStepIsChild(items, y, k);
      }
    }
    MoveDepth(items, id, row, MAX_PATH_DEPTH, 1);
  }

  lemma {:induction false} LastStepIsChild(items: Items, y: Id, k: nat)
    requires k > 0 && Ancestor(items, y, k).Some?
    ensures HasChild(items, Ancestor(items, y, k).value)
    decreases k
  {
    if k == 1 {
      assert items[y].parent == Ancestor(items, y, k);
    } else {
      LastStepIsChild(items, items[y].parent.value, k - 1);
    }
  }

  function LineItem(i: int): Item {
    Item(0, if i == 0 then None else Some(i - 1), true)
  }

  /** A single line of `n` items, 0 being the root. */
  function Line(n: nat): Items {
    map i: int {:trigger LineItem(i)} | 0 <= i < n :: LineItem(i)
  }

  lemma {:induction false} LineDepth(n: nat, i: nat, fuel: nat)
    requires i < n && i < fuel
    ensures Depth(Line(n), 0, Some(i), fuel) == i + 1
    ensures Rooted(Line(n), i, i + 1)
    ensures forall t :: Meets(Line(n), 0, Some(i), t, fuel) <==> 0 <= t <= i
  {
    if i > 0 {
      LineDepth(n, i - 1, fuel - 1);
    }
  }

  lemma LineExtends(n: nat)
    ensures Line(n)[n := LineItem(n)] == Line(n + 1)
  {
  }

  /** Inserting one below the other is accepted up to 32 nodes, and refused from there on. */
  lemma LineGrows(n: nat)
    requires 0 < n
    ensures InsertItem(Line(n), n, Item(0, Some(n - 1), true)) ==
            if n < MAX_PATH_DEPTH then Ok(Line(n + 1)) else Err(TooDeep)
  {
    var row := LineItem(n);
    LineExtends(n);
    assert GuardVerdict(Line(n), n, row) == if n < MAX_PATH_DEPTH then None else Some(TooDeep) by {
      if n <= MAX_PATH_DEPTH {
        LineDepth(n, n - 1, MAX_PATH_DEPTH);
      } else {
        LongLine(n, n - 1, MAX_PATH_DEPTH);
      }
    }
  }

  lemma {:induction false} LongLine(n: nat, i: nat, fuel: nat)
    requires i < n && fuel <= i
    ensures Depth(Line(n), 0, Some(i), fuel) == fuel
    ensures forall t :: Meets(Line(n), 0, Some(i), t, fuel) ==> 0 <= t <= i
  {
    if fuel > 0 {
      LongLine(n, i - 1, fuel - 1);
    }
  }

  /** The guard alone does not give 32 for all nodes: moving a two-node tree below 31 nodes gives 33. */
  lemma GuardAloneAllows33()
    ensures var items := Line(31)[100 := Item(0, None, true)][101 := Item(0, Some(100), true)];
            && AllWithin(items, 31)
            && UpdateItem(items, 100, Some(Some(30)), None).Ok?
            && var after := UpdateItem(items, 100, Some(Some(30)), None).value;
               Ancestor(after, 101, 32) == Some(0)
  {
    var items := Line(31)[100 := Item(0, None, true)][101 := Item(0, Some(100), true)];
    forall i: int | 0 <= i < 31 ensures Rooted(items, i, 31) {
      ExtendedLine(items, i, MAX_PATH_DEPTH);
      RootedMonotone(items, i, i + 1, 31);
    }
    ExtendedLine(items, 30, MAX_PATH_DEPTH);
    assert Rooted(items, 100, 1);
    RootedMonotone(items, 100, 1, 31);
    assert Rooted(items, 101, 2);
    RootedMonotone(items, 101, 2, 31);
    var after := items[100 := Item(0, Some(30), true)];
    ExtendedLine(after, 30, MAX_PATH_DEPTH);
    assert after[101] == Item(0, Some(100), true) && after[100] == Item(0, Some(30), true);
    assert Ancestor(after, 100, 31) == Ancestor(after, 30, 30);
    assert Ancestor(after, 101, 32) == Ancestor(after, 100, 31);
  }

  lemma {:induction false} ExtendedLine(items: Items, i: nat, fuel: nat)
    requires i < 31 && i < fuel
    requires forall j: int | 0 <= j < 31 :: j in items && items[j] == Line(31)[j]
    ensures Depth(items, 0, Some(i), fuel) == i + 1
    ensures Rooted(items, i, i + 1)
    ensures Ancestor(items, i, i) == Some(0)
    ensures forall t :: Meets(items, 0, Some(i), t, fuel) <==> 0 <= t <= i
  {
    assert items[i] == Line(31)[i];
    if i > 0 {
      ExtendedLine(items, i - 1, fuel - 1);
    }
  }
}
