/** Types shared by every model of a table: nullable columns and statements that may raise. */
module Common {

  /** Primary keys and other opaque values that are only compared, such as timestamps. */
  type Id = int

  /** A nullable column. */
  datatype Option<+T> = None | Some(value: T)

  /** The outcome of a statement: a value, or the error that aborts it. */
  datatype Result<+T, +E> = Ok(value: T) | Err(error: E)

  /** ORDER BY created_at DESC, id DESC puts row `i`, made at `a`, before row `j`, made at `b`. */
  predicate Later(a: int, i: Id, b: int, j: Id) {
    a > b || (a == b && i > j)
  }

  /** A non-empty set of keys has a member to choose. */
  lemma NonEmpty(ids: set<Id>)
    ensures ids != {} ==> exists id :: id in ids
  {
    assert (forall id :: id !in ids) ==> ids == {};
  }

  /** A pass over `all` has dealt with `done`. */
  ghost predicate Splits<T>(all: set<T>, left: set<T>, done: set<T>) {
    left !! done && left + done == all
  }

  lemma OneLess<T>(all: set<T>, left: set<T>, done: set<T>, i: T)
    requires Splits(all, left, done) && i in left
    ensures Splits(all, left - {i}, done + {i}) && |left - {i}| < |left|
  {
  }

  lemma Associate<T>(a: seq<T>, b: seq<T>, c: seq<T>)
    ensures a + b + c == a + (b + c)
  {
  }

  function Range(m: map<Id, Id>): set<Id> {
    set k | k in m :: m[k]
  }

  ghost predicate Injective(m: map<Id, Id>) {
    forall i, j | i in m && j in m && m[i] == m[j] :: i == j
  }

  lemma InjectiveExtends(m: map<Id, Id>, i: Id, v: Id)
    requires Injective(m) && i !in m && v !in Range(m)
    ensures Injective(m[i := v])
  {
    forall j | j in m ensures m[j] != v {
      assert m[j] in Range(m);
    }
  }

  lemma RangeExtends(m: map<Id, Id>, i: Id, v: Id)
    requires i !in m
    ensures Range(m[i := v]) == Range(m) + {v}
  {
    var m' := m[i := v];
    assert m'[i] == v;
    forall j | j in m ensures m[j] in Range(m') {
      assert m'[j] == m[j];
    }
  }

  /** A key that is not in use yet: what a random UUID stands for. */
  method FreshId(used: set<Id>) returns (id: Id)
    ensures id !in used
  {
    id := 0;
    var left := used;
    while left != {}
      invariant left <= used && forall x | x in used && x !in left :: x < id
      decreases |left|
    {
      NonEmpty(left);
      var x :| x in left;
      if id <= x {
        id := x + 1;
      }
      left := left - {x};
    }
  }
}
