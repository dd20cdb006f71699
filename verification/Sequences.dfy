/** Row-list vocabulary shared by every module: selection, lookup, first failure and SQL-style updates.
    Every recursion peels the last row, so a loop that has done `rows[..i]` is one unfolding away from `i + 1`. */
module Sequences {

  datatype Option<+T> = None | Some(value: T)

  datatype Result<+T, +E> = Success(value: T) | Failure(error: E)

  /** `SELECT ... WHERE keep`, in row order. */
  function Filter<T(!new)>(rows: seq<T>, keep: T -> bool): (kept: seq<T>)
    ensures |kept| <= |rows|
    ensures forall x :: x in kept <==> x in rows && keep(x)
  {
    if rows == [] then []
    else
      var last := rows[|rows| - 1];
      assert rows == rows[..|rows| - 1] + [last];
      var front := Filter(rows[..|rows| - 1], keep);
      if keep(last) then front + [last] else front
  }

  /** `SELECT count(*) ... WHERE keep`. */
  function Count<T(!new)>(rows: seq<T>, keep: T -> bool): nat {
    |Filter(rows, keep)|
  }

  lemma CountZero<T(!new)>(rows: seq<T>, keep: T -> bool)
    ensures Count(rows, keep) == 0 <==> forall x :: x in rows ==> !keep(x)
  {
    if Count(rows, keep) != 0 {
      assert Filter(rows, keep)[0] in Filter(rows, keep);
    }
  }

  function MapRows<T(!new), U>(rows: seq<T>, f: T -> U): (mapped: seq<U>)
    ensures |mapped| == |rows|
    ensures forall i :: 0 <= i < |rows| ==> mapped[i] == f(rows[i])
  {
    seq(|rows|, i requires 0 <= i < |rows| => f(rows[i]))
  }

  /** `UPDATE ... SET change WHERE hit`. */
  function UpdateWhere<T(!new)>(rows: seq<T>, hit: T -> bool, change: T -> T): (updated: seq<T>)
    ensures |updated| == |rows|
    ensures forall i :: 0 <= i < |rows| ==> updated[i] == if hit(rows[i]) then change(rows[i]) else rows[i]
  {
    seq(|rows|, i requires 0 <= i < |rows| => if hit(rows[i]) then change(rows[i]) else rows[i])
  }

  /** A primary key: no two rows share the value of `key`. */
  ghost predicate UniqueBy<T(!new), K(!new)>(rows: seq<T>, key: T -> K) {
    forall i, j :: 0 <= i < j < |rows| ==> key(rows[i]) != key(rows[j])
  }

  /** The row a JavaScript `Map` built from `rows` holds under `id`: the last one with that key. */
  function Find<T(!new), K(==,!new)>(rows: seq<T>, key: T -> K, id: K): (found: Option<T>)
    ensures found.Some? ==> found.value in rows && key(found.value) == id
    ensures found.None? ==> forall x :: x in rows ==> key(x) != id
  {
    if rows == [] then None
    else
      var last := rows[|rows| - 1];
      assert rows == rows[..|rows| - 1] + [last];
      if key(last) == id then Some(last) else Find(rows[..|rows| - 1], key, id)
  }

  /** `new Map(rows.map((row) => [key(row), row]))`. */
  function IndexBy<T(!new), K(==,!new)>(rows: seq<T>, key: T -> K): map<K, T> {
    if rows == [] then map[]
    else IndexBy(rows[..|rows| - 1], key)[key(rows[|rows| - 1]) := rows[|rows| - 1]]
  }

  function Get<K, V>(m: map<K, V>, id: K): Option<V> {
    if id in m then Some(m[id]) else None
  }

  /** The failure of the first row that has one. */
  function FirstFault<T(!new), F>(rows: seq<T>, fault: T -> Option<F>): (first: Option<F>)
    ensures first.None? <==> forall x :: x in rows ==> fault(x).None?
    ensures first.Some? ==> exists x :: x in rows && fault(x) == first
  {
    if rows == [] then None
    else
      var last := rows[|rows| - 1];
      assert rows == rows[..|rows| - 1] + [last];
      var front := FirstFault(rows[..|rows| - 1], fault);
      if front.Some? then front else fault(last)
  }

  /** `rows` after the rows whose key is in `done` have been rewritten by `f`. */
  ghost function Patched<T(!new), K(!new)>(rows: seq<T>, key: T -> K, done: set<K>, f: T -> T): (patched: seq<T>)
    ensures |patched| == |rows|
    ensures forall i :: 0 <= i < |rows| ==> patched[i] == if key(rows[i]) in done then f(rows[i]) else rows[i]
  {
    seq(|rows|, i requires 0 <= i < |rows| => if key(rows[i]) in done then f(rows[i]) else rows[i])
  }

  ghost function Keys<T(!new), K(!new)>(rows: seq<T>, key: T -> K): (keys: set<K>)
    ensures forall x :: x in rows ==> key(x) in keys
    ensures forall k :: k in keys ==> exists x :: x in rows && key(x) == k
  {
    set i | 0 <= i < |rows| :: key(rows[i])
  }

  lemma UniqueRow<T(!new), K(!new)>(rows: seq<T>, key: T -> K, x: T, y: T)
    requires UniqueBy(rows, key) && x in rows && y in rows && key(x) == key(y)
    ensures x == y
  {
    var i :| 0 <= i < |rows| && rows[i] == x;
    var j :| 0 <= j < |rows| && rows[j] == y;
    assert i == j;
  }

  lemma FindUnique<T(!new), K(!new)>(rows: seq<T>, key: T -> K, x: T)
    requires UniqueBy(rows, key) && x in rows
    ensures Find(rows, key, key(x)) == Some(x)
  {
    UniqueRow(rows, key, x, Find(rows, key, key(x)).value);
  }

  lemma {:induction false} IndexFind<T(!new), K(!new)>(rows: seq<T>, key: T -> K, id: K)
    ensures Get(IndexBy(rows, key), id) == Find(rows, key, id)
  {
    if rows != [] {
      IndexFind(rows[..|rows| - 1], key, id);
    }
  }

  lemma UniqueExtend<T(!new), K(!new)>(rows: seq<T>, key: T -> K)
    requires rows != []
    ensures UniqueBy(rows, key) <==>
            UniqueBy(rows[..|rows| - 1], key) && Find(rows[..|rows| - 1], key, key(rows[|rows| - 1])).None?
  {
    var n := |rows| - 1;
    var front := rows[..n];
    var twin := Find(front, key, key(rows[n]));
    if twin.Some? {
      var i :| 0 <= i < n && front[i] == twin.value;
      assert key(rows[i]) == key(rows[n]);
    } else {
      assert forall i :: 0 <= i < n ==> front[i] in front && rows[i] == front[i];
    }
  }

  /** The planners detect duplicate ids by comparing the `Map` size with the row count. */
  lemma {:induction false} IndexSize<T(!new), K(!new)>(rows: seq<T>, key: T -> K)
    ensures |IndexBy(rows, key)| <= |rows|
    ensures |IndexBy(rows, key)| == |rows| <==> UniqueBy(rows, key)
  {
    if rows != [] {
      var front, last := rows[..|rows| - 1], rows[|rows| - 1];
      IndexSize(front, key);
      IndexFind(front, key, key(last));
      UniqueExtend(rows, key);
    }
  }

  lemma {:induction false} FirstFaultPrefix<T(!new), F>(rows: seq<T>, fault: T -> Option<F>, n: nat)
    requires n <= |rows| && FirstFault(rows[..n], fault).Some?
    ensures FirstFault(rows, fault) == FirstFault(rows[..n], fault)
    decreases |rows|
  {
    if n < |rows| {
      assert rows[..|rows| - 1][..n] == rows[..n];
      FirstFaultPrefix(rows[..|rows| - 1], fault, n);
    } else {
      assert rows[..n] == rows;
    }
  }

  /** One more row checked: it is the first to fail, or none has failed yet. */
  lemma FaultStep<T(!new), F>(rows: seq<T>, fault: T -> Option<F>, i: nat)
    requires i < |rows| && FirstFault(rows[..i], fault).None?
    ensures FirstFault(rows[..i + 1], fault) == fault(rows[i])
    ensures fault(rows[i]).Some? ==> FirstFault(rows, fault) == fault(rows[i])
  {
    assert rows[..i + 1][..i] == rows[..i];
    if fault(rows[i]).Some? {
      FirstFaultPrefix(rows, fault, i + 1);
    }
  }

  lemma MapPrefix<T(!new), U>(rows: seq<T>, f: T -> U, i: nat)
    requires i < |rows|
    ensures MapRows(rows[..i + 1], f) == MapRows(rows[..i], f) + [f(rows[i])]
  {
  }

  lemma {:induction false} FilterUnique<T(!new), K(!new)>(rows: seq<T>, keep: T -> bool, key: T -> K)
    requires UniqueBy(rows, key)
    ensures UniqueBy(Filter(rows, keep), key)
  {
    if rows != [] {
      var n := |rows| - 1;
      var front := rows[..n];
      FilterUnique(front, keep, key);
      var kept := Filter(front, keep);
      forall i | 0 <= i < |kept| ensures key(kept[i]) != key(rows[n]) {
        assert kept[i] in front;
        var j :| 0 <= j < n && front[j] == kept[i];
        assert rows[j] == front[j];
      }
    }
  }

  lemma {:induction false} FilterSame<T(!new)>(rows: seq<T>, p: T -> bool, q: T -> bool)
    requires forall x :: x in rows ==> p(x) == q(x)
    ensures Filter(rows, p) == Filter(rows, q)
  {
    if rows != [] {
      FilterSame(rows[..|rows| - 1], p, q);
      assert rows[|rows| - 1] in rows;
    }
  }

  lemma {:induction false} FilterSubset<T(!new)>(rows: seq<T>, p: T -> bool, q: T -> bool)
    requires forall x :: x in rows && p(x) ==> q(x)
    ensures |Filter(rows, p)| <= |Filter(rows, q)|
  {
    if rows != [] {
      FilterSubset(rows[..|rows| - 1], p, q);
      assert rows[|rows| - 1] in rows;
    }
  }

  lemma {:induction false} FilterFilter<T(!new)>(rows: seq<T>, p: T -> bool, q: T -> bool, both: T -> bool)
    requires forall x :: x in rows ==> both(x) == (p(x) && q(x))
    ensures Filter(Filter(rows, p), q) == Filter(rows, both)
  {
    if rows != [] {
      var n := |rows| - 1;
      FilterFilter(rows[..n], p, q, both);
      assert rows[n] in rows;
      if p(rows[n]) {
        assert (Filter(rows[..n], p) + [rows[n]])[..|Filter(rows[..n], p)|] == Filter(rows[..n], p);
      }
    }
  }

  /** Selecting from row-wise rewritten rows, when the selection does not look at what was rewritten. */
  lemma {:induction false} FilterMap<T(!new), U(!new)>(rows: seq<T>, f: T -> U, p: T -> bool, q: U -> bool)
    requires forall x :: x in rows ==> q(f(x)) == p(x)
    ensures Filter(MapRows(rows, f), q) == MapRows(Filter(rows, p), f)
  {
    if rows != [] {
      var n := |rows| - 1;
      FilterMap(rows[..n], f, p, q);
      assert MapRows(rows, f)[..n] == MapRows(rows[..n], f);
      assert rows[n] in rows;
      assert MapRows(rows, f)[n] == f(rows[n]);
    }
  }

  lemma MapAgree<T(!new), U>(rows: seq<T>, f: T -> U, g: T -> U)
    requires forall x :: x in rows ==> f(x) == g(x)
    ensures MapRows(rows, f) == MapRows(rows, g)
  {
    assert forall i :: 0 <= i < |rows| ==> rows[i] in rows;
  }

  /** Mapping rewritten rows is mapping the rows, when `g` sees of them what `e` computes. */
  lemma MapComposed<T(!new), U>(rows: seq<T>, f: T -> T, g: T -> U, e: T -> U)
    requires forall x :: x in rows ==> g(f(x)) == e(x)
    ensures MapRows(MapRows(rows, f), g) == MapRows(rows, e)
  {
    assert forall i :: 0 <= i < |rows| ==> rows[i] in rows;
  }

  lemma {:induction false} CountSplit<T(!new)>(rows: seq<T>, p: T -> bool, q: T -> bool, r: T -> bool)
    requires forall x :: x in rows ==> (p(x) <==> q(x) || r(x)) && !(q(x) && r(x))
    ensures Count(rows, p) == Count(rows, q) + Count(rows, r)
  {
    if rows != [] {
      CountSplit(rows[..|rows| - 1], p, q, r);
      assert rows[|rows| - 1] in rows;
    }
  }

  lemma {:induction false} FilterAll<T(!new)>(rows: seq<T>, keep: T -> bool)
    requires forall x :: x in rows ==> keep(x)
    ensures Filter(rows, keep) == rows
  {
    if rows != [] {
      FilterAll(rows[..|rows| - 1], keep);
      assert rows[|rows| - 1] in rows;
    }
  }

  /** Row by row over the tables before and after: how many rows `differ` holds of. */
  function Differing<T(!new)>(before: seq<T>, after: seq<T>, differ: (T, T) -> bool): nat
    requires |before| == |after|
  {
    if before == [] then 0
    else
      var n := |before| - 1;
      Differing(before[..n], after[..n], differ) + if differ(before[n], after[n]) then 1 else 0
  }

  lemma {:induction false} CountIsDiffering<T(!new)>(rows: seq<T>, f: T -> T, hit: T -> bool, differ: (T, T) -> bool)
    requires forall x :: hit(x) == differ(x, f(x))
    ensures Count(rows, hit) == Differing(rows, MapRows(rows, f), differ)
  {
    if rows != [] {
      var n := |rows| - 1;
      CountIsDiffering(rows[..n], f, hit, differ);
      assert MapRows(rows, f)[..n] == MapRows(rows[..n], f);
    }
  }

  lemma FilterPrefix<T(!new)>(rows: seq<T>, keep: T -> bool, i: nat)
    requires i < |rows|
    ensures Filter(rows[..i + 1], keep) == Filter(rows[..i], keep) + if keep(rows[i]) then [rows[i]] else []
  {
    assert rows[..i + 1][..i] == rows[..i];
  }

  /** One row matches a condition that fixes the primary key: the update's row count is exactly one. */
  lemma {:induction false} CountOne<T(!new), K(!new)>(rows: seq<T>, key: T -> K, hit: T -> bool, x: T)
    requires UniqueBy(rows, key) && x in rows && hit(x)
    requires forall y :: y in rows && hit(y) ==> key(y) == key(x)
    ensures Filter(rows, hit) == [x]
  {
    var kept := Filter(rows, hit);
    FilterUnique(rows, hit, key);
    assert |kept| > 1 ==> key(kept[0]) != key(kept[1]);
    assert x in kept;
    forall i | 0 <= i < |kept| ensures key(kept[i]) == key(x) && kept[i] == x {
      assert kept[i] in kept;
      UniqueRow(rows, key, x, kept[i]);
    }
  }

  /** One `UPDATE ... WHERE id = $1` moves the table from `done` to `done + {id}`. */
  lemma PatchStep<T(!new), K(!new)>(rows: seq<T>, key: T -> K, done: set<K>, f: T -> T, x: T, hit: T -> bool, change: T -> T)
    requires UniqueBy(rows, key) && x in rows && key(x) !in done
    requires forall y :: y in rows ==> key(f(y)) == key(y)
    requires hit(x) && change(x) == f(x)
    requires forall y :: y in rows && key(y) != key(x) ==> !hit(y) && (key(y) in done ==> !hit(f(y)))
    ensures UpdateWhere(Patched(rows, key, done, f), hit, change) == Patched(rows, key, done + {key(x)}, f)
  {
    forall i | 0 <= i < |rows|
      ensures UpdateWhere(Patched(rows, key, done, f), hit, change)[i] == Patched(rows, key, done + {key(x)}, f)[i]
    {
      assert rows[i] in rows;
      if key(rows[i]) == key(x) {
        UniqueRow(rows, key, rows[i], x);
      }
    }
  }

  lemma PatchSkip<T(!new), K(!new)>(rows: seq<T>, key: T -> K, done: set<K>, f: T -> T, x: T)
    requires UniqueBy(rows, key) && x in rows && f(x) == x
    ensures Patched(rows, key, done, f) == Patched(rows, key, done + {key(x)}, f)
  {
    forall i | 0 <= i < |rows|
      ensures Patched(rows, key, done, f)[i] == Patched(rows, key, done + {key(x)}, f)[i]
    {
      assert rows[i] in rows;
      if key(rows[i]) == key(x) {
        UniqueRow(rows, key, rows[i], x);
      }
    }
  }

  lemma PatchNone<T(!new), K(!new)>(rows: seq<T>, key: T -> K, f: T -> T)
    ensures Patched(rows, key, {}, f) == rows
  {
  }

  lemma PatchAll<T(!new), K(!new)>(rows: seq<T>, key: T -> K, done: set<K>, f: T -> T)
    requires forall x :: x in rows && key(x) !in done ==> f(x) == x
    ensures Patched(rows, key, done, f) == MapRows(rows, f)
  {
    assert forall i :: 0 <= i < |rows| ==> rows[i] in rows;
  }

  lemma KeysStep<T(!new), K(!new)>(rows: seq<T>, key: T -> K, i: nat)
    requires i < |rows|
    ensures Keys(rows[..i + 1], key) == Keys(rows[..i], key) + {key(rows[i])}
    ensures UniqueBy(rows, key) ==> key(rows[i]) !in Keys(rows[..i], key)
  {
    var now, was := rows[..i + 1], rows[..i];
    assert now == was + [rows[i]];
    assert rows[i] in now;
    forall k | k in Keys(now, key) ensures k in Keys(was, key) + {key(rows[i])} {
      var x :| x in now && key(x) == k;
      assert x in was || x == rows[i];
    }
    forall k | k in Keys(was, key) ensures k in Keys(now, key) {
      var x :| x in was && key(x) == k;
      assert x in now;
    }
    if UniqueBy(rows, key) {
      forall x | x in was ensures key(x) != key(rows[i]) {
        var j :| 0 <= j < i && was[j] == x;
        assert rows[j] == x;
      }
    }
  }

  lemma KeysFind<T(!new), K(!new)>(rows: seq<T>, key: T -> K, id: K)
    ensures id in Keys(rows, key) <==> Find(rows, key, id).Some?
  {
  }

  lemma Associate<T>(a: seq<T>, b: seq<T>, c: seq<T>)
    ensures a + b + c == a + (b + c)
  {
  }

  /** Two finite sets in bijection have the same size. */
  lemma {:induction false} BijectionSize<A, B>(xs: set<A>, ys: set<B>, f: map<A, B>)
    requires forall x :: x in xs ==> x in f && f[x] in ys
    requires forall x, x' :: x in xs && x' in xs && f[x] == f[x'] ==> x == x'
    requires forall y :: y in ys ==> exists x :: x in xs && f[x] == y
    ensures |xs| == |ys|
    decreases |xs|
  {
    if xs == {} {
      assert ys == {};
    } else {
      var x :| x in xs;
      BijectionSize(xs - {x}, ys - {f[x]}, f);
    }
  }

  lemma {:induction false} KeysSize<T(!new), K(!new)>(rows: seq<T>, key: T -> K)
    requires UniqueBy(rows, key)
    ensures |Keys(rows, key)| == |rows|
  {
    if rows == [] {
      assert Keys(rows, key) == {};
    } else {
      var n := |rows| - 1;
      KeysSize(rows[..n], key);
      KeysStep(rows, key, n);
      assert rows[..n + 1] == rows;
    }
  }
}
