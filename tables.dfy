/** The persistence layer as the services see it: one repository per entity,
    holding the table's rows by primary key, and the query engine's part of a
    paginated `find` (enumerate, filter, order, skip and take). */
module Tables {
  import opened Common

  /** A TypeORM `Repository<T>`: the rows of one table by id. `nextId` is the
      key the next insert receives, so keys are never reused. */
  class Repository<T> {
    var rows: map<Id, T>
    var nextId: Id

    ghost predicate Valid()
      reads this
    {
      forall id :: id in rows ==> id < nextId
    }

    constructor ()
      ensures Valid() && rows == map[] && nextId == 0
    {
      rows := map[];
      nextId := 0;
    }

    /** `save` of a newly created entity: the row gets a fresh key. */
    method Insert(row: T) returns (id: Id)
      requires Valid()
      modifies this
      ensures Valid()
      ensures id !in old(rows) && rows == old(rows)[id := row]
      ensures old(nextId) <= id < nextId
    {
      id := nextId;
      rows := rows[id := row];
      nextId := nextId + 1;
    }

    /** `save` of an entity that was loaded from this table. */
    method Save(id: Id, row: T)
      requires Valid() && id in rows
      modifies this`rows
      ensures Valid()
      ensures rows == old(rows)[id := row]
    {
      rows := rows[id := row];
    }

    /** `remove` / `delete` by key. */
    method Remove(id: Id)
      requires Valid()
      modifies this`rows
      ensures Valid()
      ensures rows == old(rows) - {id}
    {
      rows := rows - {id};
    }
  }

  /** The rows whose keys are below `n`, in ascending key (insertion) order:
      the order in which the query engine meets them. */
  function RowsBelow<T>(m: map<Id, T>, n: nat): (s: seq<T>)
    ensures |s| <= n
  {
    if n == 0 then []
    else RowsBelow(m, n - 1) + (if n - 1 in m then [m[n - 1]] else [])
  }

  /** Every row of the table below the bound appears in the enumeration, and
      nothing else does. */
  lemma {:induction false} RowsBelowMembers<T>(m: map<Id, T>, n: nat, x: T)
    ensures x in RowsBelow(m, n) <==> exists id :: id in m && id < n && m[id] == x
  {
    if n > 0 {
      RowsBelowMembers(m, n - 1, x);
      if n - 1 in m && m[n - 1] == x {
        assert x in RowsBelow(m, n);
      }
    }
  }

  /** The rows satisfying a `where` condition, in their original order. */
  function Filter<T>(s: seq<T>, p: T -> bool): (r: seq<T>)
    ensures |r| <= |s|
    ensures forall x :: x in r ==> x in s && p(x)
  {
    if s == [] then []
    else (if p(s[0]) then [s[0]] else []) + Filter(s[1..], p)
  }

  lemma {:induction false} FilterKeeps<T>(s: seq<T>, p: T -> bool, x: T)
    requires x in s && p(x)
    ensures x in Filter(s, p)
  {
    if s[0] != x {
      FilterKeeps(s[1..], p, x);
    }
  }

  ghost predicate SortedDesc<T>(s: seq<T>, key: T -> int) {
    forall i, j :: 0 <= i < j < |s| ==> key(s[i]) >= key(s[j])
  }

  /** Places `x` before the first element whose key does not exceed its own. */
  function InsertDesc<T>(x: T, s: seq<T>, key: T -> int): (r: seq<T>)
  {
    if s == [] || key(x) >= key(s[0]) then [x] + s
    else [s[0]] + InsertDesc(x, s[1..], key)
  }

  /** `order: { key: 'DESC' }`: an insertion sort, descending by `key`. */
  function SortDesc<T>(s: seq<T>, key: T -> int): (r: seq<T>)
  {
    if s == [] then [] else InsertDesc(s[0], SortDesc(s[1..], key), key)
  }

  lemma {:induction false} InsertDescPermutes<T>(x: T, s: seq<T>, key: T -> int)
    ensures multiset(InsertDesc(x, s, key)) == multiset(s) + multiset{x}
  {
    if s != [] && key(x) < key(s[0]) {
      InsertDescPermutes(x, s[1..], key);
      assert s == [s[0]] + s[1..];
    }
  }

  lemma {:induction false} InsertDescSorted<T>(x: T, s: seq<T>, key: T -> int)
    requires SortedDesc(s, key)
    ensures SortedDesc(InsertDesc(x, s, key), key)
  {
    if s != [] && key(x) < key(s[0]) {
      InsertDescSorted(x, s[1..], key);
      var t := InsertDesc(x, s[1..], key);
      InsertDescPermutes(x, s[1..], key);
      forall k | 0 <= k < |t| ensures key(s[0]) >= key(t[k]) {
        assert t[k] in multiset(t);
        assert t[k] in multiset(s[1..]) + multiset{x};
        if t[k] != x {
          assert t[k] in s[1..];
        }
      }
    }
  }

  /** The ordered result holds exactly the rows given, in descending order. */
  lemma {:induction false} SortDescCorrect<T>(s: seq<T>, key: T -> int)
    ensures SortedDesc(SortDesc(s, key), key)
    ensures multiset(SortDesc(s, key)) == multiset(s)
  {
    if s != [] {
      SortDescCorrect(s[1..], key);
      InsertDescSorted(s[0], SortDesc(s[1..], key), key);
      InsertDescPermutes(s[0], SortDesc(s[1..], key), key);
      assert s == [s[0]] + s[1..];
    }
  }

  /** `skip` and `take` of a paginated find; a `take` of 0 stands for no
      `take` option, which does not limit the result. The database refuses a
      negative OFFSET or LIMIT, so callers that can produce one check it
      first; for such values this function clamps, a choice no caller
      relies on. */
  function Window<T>(s: seq<T>, skip: int, take: int): (r: seq<T>)
    ensures take > 0 ==> |r| <= take
    ensures skip >= 0 && skip <= |s| && take > 0 && skip + take <= |s| ==> r == s[skip..skip + take]
    ensures forall x :: x in r ==> x in s
  {
    var from := if skip < 0 then 0 else if skip > |s| then |s| else skip;
    var to := if take <= 0 || from + take > |s| then |s| else from + take;
    s[from..to]
  }

  lemma WindowSorted<T>(s: seq<T>, skip: int, take: int, key: T -> int)
    requires SortedDesc(s, key)
    ensures SortedDesc(Window(s, skip, take), key)
  {
  }

  /** A paginated `find`: the rows below `n` that satisfy `where`, ordered by
      `key` descending, then `skip` and `take` applied. */
  function Find<T>(m: map<Id, T>, n: nat, where: T -> bool, key: T -> int, skip: int, take: int): seq<T>
  {
    Window(SortDesc(Filter(RowsBelow(m, n), where), key), skip, take)
  }

  /** What `findAndCount` reports as `total`: every matching row, before
      `skip` and `take`. */
  function Count<T>(m: map<Id, T>, n: nat, where: T -> bool): nat
  {
    |Filter(RowsBelow(m, n), where)|
  }

  /** A page holds only rows of the table that satisfy the condition, at most
      `take` of them, in descending key order. */
  lemma FindSound<T>(m: map<Id, T>, n: nat, where: T -> bool, key: T -> int, skip: int, take: int)
    ensures forall x :: x in Find(m, n, where, key, skip, take) ==>
      where(x) && exists id :: id in m && m[id] == x
    ensures SortedDesc(Find(m, n, where, key, skip, take), key)
    ensures take > 0 ==> |Find(m, n, where, key, skip, take)| <= take
  {
    var rows := RowsBelow(m, n);
    var matching := Filter(rows, where);
    var sorted := SortDesc(matching, key);
    SortDescCorrect(matching, key);
    WindowSorted(sorted, skip, take, key);
    forall x | x in Find(m, n, where, key, skip, take)
      ensures where(x) && exists id :: id in m && m[id] == x
    {
      assert x in sorted;
      assert x in multiset(matching);
      assert x in rows;
      RowsBelowMembers(m, n, x);
    }
  }

  /** Without a condition and a window, the listing of a table whose keys are
      all below the bound holds every row, in descending key order. */
  lemma ListAllComplete<T>(m: map<Id, T>, n: nat, key: T -> int)
    requires forall id :: id in m ==> id < n
    ensures SortedDesc(Find(m, n, _ => true, key, 0, 0), key)
    ensures forall id :: id in m ==> m[id] in Find(m, n, _ => true, key, 0, 0)
    ensures |Find(m, n, _ => true, key, 0, 0)| == |m|
  {
    var rows := RowsBelow(m, n);
    FilterAll(rows);
    SortDescCorrect(rows, key);
    RowsBelowSize(m, n);
    assert KeysBelow(m, n) == m.Keys;
    assert |multiset(SortDesc(rows, key))| == |rows|;
    forall id | id in m ensures m[id] in Find(m, n, _ => true, key, 0, 0) {
      RowsBelowMembers(m, n, m[id]);
      assert m[id] in multiset(SortDesc(rows, key));
    }
  }

  /** The keys of `m` below `n`: the rows `RowsBelow` visits. */
  ghost function KeysBelow<T>(m: map<Id, T>, n: nat): set<Id> {
    set id | id in m && id < n
  }

  /** `RowsBelow` yields one entry per key, duplicates of a value included. */
  lemma {:induction false} RowsBelowSize<T>(m: map<Id, T>, n: nat)
    ensures |RowsBelow(m, n)| == |KeysBelow(m, n)|
  {
    if n == 0 {
      assert KeysBelow(m, n) == {};
    } else {
      RowsBelowSize(m, n - 1);
      if n - 1 in m {
        assert KeysBelow(m, n) == KeysBelow(m, n - 1) + {n - 1};
      } else {
        assert KeysBelow(m, n) == KeysBelow(m, n - 1);
      }
    }
  }

  lemma {:induction false} FilterAll<T>(s: seq<T>)
    ensures Filter(s, _ => true) == s
  {
    if s != [] {
      FilterAll(s[1..]);
      assert s == [s[0]] + s[1..];
    }
  }
}
