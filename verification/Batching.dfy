/**
 Self-limiting updates in batches: `_batched` of
 alembic/versions/c1b_backfill_billing_rework_backfill.py.  LIMIT picks any rows it likes.
 */
module Batching {
  import opened Common

  type Table<+R> = map<Id, R>

  /** The rows a statement's WHERE clause selects. */
  function Eligible<R>(t: Table<R>, where: (Id, R) -> bool): set<Id> {
    set i | i in t && where(i, t[i])
  }

  /** An UPDATE of some rows. */
  function UpdateRows<R>(t: Table<R>, ids: set<Id>, change: (Id, R) -> R): Table<R> {
    map i | i in t :: if i in ids then change(i, t[i]) else t[i]
  }

  /** The same UPDATE without LIMIT. */
  function OneShot<R>(t: Table<R>, where: (Id, R) -> bool, change: (Id, R) -> R): Table<R> {
    map i | i in t :: if where(i, t[i]) then change(i, t[i]) else t[i]
  }

  /** A changed row is not selected again. */
  ghost predicate SelfLimiting<R(!new)>(where: (Id, R) -> bool, change: (Id, R) -> R) {
    forall i, r | where(i, r) :: !where(i, change(i, r))
  }

  function Smaller(a: nat, b: nat): nat {
    if a <= b then a else b
  }

  /** LIMIT: as many rows as asked for, if there are that many; which ones is not determined. */
  method Limit(ids: set<Id>, batch: nat) returns (chosen: set<Id>)
    ensures chosen <= ids && |chosen| == Smaller(batch, |ids|)
  {
    chosen := {};
    var left := ids;
    while left != {} && |chosen| < batch
      invariant chosen !! left && chosen + left == ids && |chosen| <= batch
      decreases |left|
    {
      NonEmpty(left);
      var id :| id in left;
      chosen, left := chosen + {id}, left - {id};
    }
    assert |ids| == |chosen| + |left|;
  }

  /** One batch takes its rows, and no others, out of the selection. */
  lemma BatchShrinksEligible<R(!new)>(t: Table<R>, where: (Id, R) -> bool, change: (Id, R) -> R, chosen: set<Id>)
    requires SelfLimiting(where, change) && chosen <= Eligible(t, where)
    ensures Eligible(UpdateRows(t, chosen, change), where) == Eligible(t, where) - chosen
    ensures OneShot(UpdateRows(t, chosen, change), where, change) == OneShot(t, where, change)
  {
    var u := UpdateRows(t, chosen, change);
    forall i | i in t ensures where(i, u[i]) <==> where(i, t[i]) && i !in chosen {
      if i in chosen {
        assert i in Eligible(t, where);
      }
    }
  }

  /** `_batched`: for every batch size and every choice of rows, the effect of the one-shot statement. */
  method Batched<R(!new)>(t: Table<R>, where: (Id, R) -> bool, change: (Id, R) -> R, batch: nat)
    returns (t': Table<R>, total: nat)
    requires batch >= 1 && SelfLimiting(where, change)
    ensures t' == OneShot(t, where, change)
    ensures total == |Eligible(t, where)|
  {
    t', total := t, 0;
    while true
      invariant OneShot(t', where, change) == OneShot(t, where, change)
      invariant total + |Eligible(t', where)| == |Eligible(t, where)|
      decreases |Eligible(t', where)|
    {
      var selected := Eligible(t', where);
      var chosen := Limit(selected, batch);
      BatchShrinksEligible(t', where, change, chosen);
      t', total := UpdateRows(t', chosen, change), total + |chosen|;
      assert selected == chosen + (selected - chosen);
      if |chosen| < batch {
        NothingLeft(t', where, change);
        return;
      }
    }
  }

  lemma NothingSelected<R(!new)>(t: Table<R>, where: (Id, R) -> bool, change: (Id, R) -> R)
    requires forall i | i in t :: !where(i, t[i])
    ensures OneShot(t, where, change) == t
  {
    var u := OneShot(t, where, change);
    forall i | i in t ensures u[i] == t[i] {
    }
  }

  lemma NothingLeft<R(!new)>(t: Table<R>, where: (Id, R) -> bool, change: (Id, R) -> R)
    requires |Eligible(t, where)| == 0
    ensures OneShot(t, where, change) == t
  {
    assert Eligible(t, where) == {};
    forall i | i in t ensures !where(i, t[i]) {
      assert i !in Eligible(t, where);
    }
    NothingSelected(t, where, change);
  }
}
