/** The storage of one Odoo model: records by id, and the recordset loop `for rec in self:
    rec.write(f(rec))` that the source's actions run. */
module Orm {
  import opened Wrappers

  /** A recordset of the table: distinct ids of existing records, in iteration order. */
  predicate IsRecordset<R>(ids: seq<nat>, rows: map<nat, R>) {
    (forall i :: 0 <= i < |ids| ==> ids[i] in rows)
    && (forall i, j :: 0 <= i < j < |ids| ==> ids[i] != ids[j])
  }

  /** Every record whose id is in `ids` rewritten by `f`, every other record kept. */
  function Updated<R>(rows: map<nat, R>, ids: set<nat>, f: R -> R): (r: map<nat, R>)
    ensures r.Keys == rows.Keys
    ensures forall k :: k in rows && k in ids ==> r[k] == f(rows[k])
    ensures forall k :: k in rows && k !in ids ==> r[k] == rows[k]
  {
    map k | k in rows :: if k in ids then f(rows[k]) else rows[k]
  }

  /** The ids of a recordset as a set. */
  function Members(ids: seq<nat>): set<nat> {
    set k | k in ids
  }

  lemma MembersPrefix(ids: seq<nat>, i: nat)
    requires i < |ids|
    ensures Members(ids[..i + 1]) == Members(ids[..i]) + {ids[i]}
  {
    assert ids[..i + 1] == ids[..i] + [ids[i]];
  }

  /** Rewriting one more record `x` extends the updated set by `x`; a record already rewritten may
      be rewritten again when `f` is idempotent on it. */
  lemma UpdatedStep<R>(rows0: map<nat, R>, done: set<nat>, x: nat, f: R -> R)
    requires x in rows0
    requires x in done ==> f(f(rows0[x])) == f(rows0[x])
    ensures Updated(rows0, done, f)[x := f(Updated(rows0, done, f)[x])] == Updated(rows0, done + {x}, f)
  {
  }

  /** The loop `for rec in ids` at step `i`: record `ids[i]` is still untouched, and rewriting it
      extends the updated prefix by one. */
  lemma UpdatedNext<R>(rows0: map<nat, R>, ids: seq<nat>, i: nat, f: R -> R)
    requires IsRecordset(ids, rows0) && i < |ids|
    ensures Updated(rows0, Members(ids[..i]), f)[ids[i]] == rows0[ids[i]]
    ensures Updated(rows0, Members(ids[..i]), f)[ids[i] := f(rows0[ids[i]])]
            == Updated(rows0, Members(ids[..i + 1]), f)
  {
    assert ids[i] !in ids[..i];
    MembersPrefix(ids, i);
    UpdatedStep(rows0, Members(ids[..i]), ids[i], f);
  }

  /** `b` keeps every record of `a` as it was (and may hold new ones). */
  ghost predicate Extends<R>(a: map<nat, R>, b: map<nat, R>) {
    forall k :: k in a ==> k in b && b[k] == a[k]
  }

  /** A map that extends another by exactly one new key is that map with the key added. */
  lemma ExtendsByOne<R>(a: map<nat, R>, b: map<nat, R>, k: nat)
    requires Extends(a, b) && k !in a && b.Keys == a.Keys + {k}
    ensures b == a[k := b[k]]
  {
  }

  /** Inserting the one record of a single-id recordset under its fresh id. */
  lemma InsertedSingle<R>(a: map<nat, R>, b: map<nat, R>, ids: seq<nat>, x: R)
    requires |ids| == 1 && ids[0] !in a && ids[0] in b && b[ids[0]] == x
    requires Extends(a, b) && b.Keys == a.Keys + Members(ids)
    ensures b == a[ids[0] := x]
  {
    assert ids == [ids[0]];
    assert Members(ids) == {ids[0]};
    ExtendsByOne(a, b, ids[0]);
  }

  lemma ExtendsTrans<R>(a: map<nat, R>, b: map<nat, R>, c: map<nat, R>)
    requires Extends(a, b) && Extends(b, c)
    ensures Extends(a, c)
  {
  }

  /** Records created after those of `a` join them as one recordset, with the records of `a` kept. */
  lemma RecordsetAppend<R>(a: seq<nat>, b: seq<nat>, before: map<nat, R>, after: map<nat, R>)
    requires IsRecordset(a, before) && Extends(before, after)
    requires IsRecordset(b, after) && forall j :: 0 <= j < |b| ==> b[j] !in before
    ensures IsRecordset(a + b, after)
    ensures forall j :: 0 <= j < |a| ==> after[a[j]] == before[a[j]]
  {
    forall j, l | 0 <= j < l < |a + b|
      ensures (a + b)[j] != (a + b)[l]
    {
      if l >= |a| && j < |a| {
        assert (a + b)[j] == a[j] && (a + b)[l] == b[l - |a|];
      }
    }
  }

  /** `records.filtered(p)` (and a `search` by a domain over `ids`): the records satisfying `p`,
      in their original order. */
  function Filter<R>(ids: seq<nat>, rows: map<nat, R>, p: R -> bool): (r: seq<nat>)
    requires forall i :: 0 <= i < |ids| ==> ids[i] in rows
    ensures |r| <= |ids| && forall i :: 0 <= i < |r| ==> r[i] in rows
    ensures forall k :: k in r <==> k in ids && p(rows[k])
    ensures IsRecordset(ids, rows) ==> IsRecordset(r, rows)
  {
    if ids == [] then []
    else
      var rest := Filter(ids[..|ids| - 1], rows, p);
      var last := ids[|ids| - 1];
      assert forall k :: k in ids <==> k in ids[..|ids| - 1] || k == last;
      if p(rows[last]) then rest + [last] else rest
  }

  /** The records of `ids` come in the order `le`. */
  predicate Ordered<R>(ids: seq<nat>, rows: map<nat, R>, le: (R, R) -> bool)
    requires forall i :: 0 <= i < |ids| ==> ids[i] in rows
  {
    forall i, j :: 0 <= i < j < |ids| ==> le(rows[ids[i]], rows[ids[j]])
  }

  lemma OrderedAppend<R>(ids: seq<nat>, last: nat, rows: map<nat, R>, le: (R, R) -> bool)
    requires forall i :: 0 <= i < |ids| ==> ids[i] in rows
    requires last in rows && Ordered(ids, rows, le)
    requires forall k :: k in ids ==> le(rows[k], rows[last])
    ensures Ordered(ids + [last], rows, le)
  {
    var r := ids + [last];
    forall i, j | 0 <= i < j < |r|
      ensures le(rows[r[i]], rows[r[j]])
    {
      assert r[i] == ids[i] && ids[i] in ids;
    }
  }

  /** A search keeps the order it reads the records in: over ids ordered by `le`, the records
      satisfying `p` come out ordered by `le` too. */
  lemma {:induction false} FilterKeepsOrder<R>(ids: seq<nat>, rows: map<nat, R>, p: R -> bool, le: (R, R) -> bool)
    requires forall i :: 0 <= i < |ids| ==> ids[i] in rows
    requires Ordered(ids, rows, le)
    ensures Ordered(Filter(ids, rows, p), rows, le)
  {
    if ids != [] {
      var init := ids[..|ids| - 1];
      var last := ids[|ids| - 1];
      FilterKeepsOrder(init, rows, p, le);
      var rest := Filter(init, rows, p);
      forall k | k in rest
        ensures le(rows[k], rows[last])
      {
        var i :| 0 <= i < |init| && init[i] == k;
        assert ids[i] == k;
      }
      if p(rows[last]) {
        OrderedAppend(rest, last, rows, le);
      }
    }
  }

  /** `records.filtered(p)[:1]`: the first record satisfying `p`, if any. */
  function First<R>(ids: seq<nat>, rows: map<nat, R>, p: R -> bool): (r: Option<nat>)
    requires forall i :: 0 <= i < |ids| ==> ids[i] in rows
    ensures r.None? <==> forall i :: 0 <= i < |ids| ==> !p(rows[ids[i]])
    ensures r.Some? ==> exists i :: 0 <= i < |ids| && ids[i] == r.value && p(rows[r.value])
                          && forall j :: 0 <= j < i ==> !p(rows[ids[j]])
  {
    if ids == [] then None
    else if p(rows[ids[0]]) then Some(ids[0])
    else
      var rest := First(ids[1..], rows, p);
      assert forall i :: 1 <= i < |ids| ==> ids[i] == ids[1..][i - 1];
      rest
  }

  class Table<R> {
    var rows: map<nat, R>
    var nextId: nat

    /** Ids are allocated above every existing record. */
    ghost predicate Valid() reads this {
      forall k :: k in rows ==> k < nextId
    }

    constructor ()
      ensures Valid() && rows == map[] && nextId == 1
    {
      rows := map[];
      nextId := 1;
    }

    /** `Model.create(vals)`: a new record under a fresh id. */
    method Create(r: R) returns (id: nat)
      requires Valid()
      modifies this
      ensures Valid()
      ensures id !in old(rows) && rows == old(rows)[id := r]
      ensures id == old(nextId) && nextId == id + 1
    {
      id := nextId;
      rows := rows[id := r];
      nextId := nextId + 1;
    }

    /** `Model.create(vals_list)` where each record is built from its values and its new id. */
    method CreateEach<A>(args: seq<A>, f: (A, nat) -> R) returns (ids: seq<nat>)
      requires Valid()
      modifies this
      ensures Valid() && |ids| == |args| && IsRecordset(ids, rows) && Extends(old(rows), rows)
      ensures rows.Keys == old(rows).Keys + Members(ids)
      ensures forall i :: 0 <= i < |ids| ==> ids[i] !in old(rows) && rows[ids[i]] == f(args[i], ids[i])
    {
      ids := [];
      var i := 0;
      while i < |args|
        invariant 0 <= i <= |args| && |ids| == i && Valid()
        invariant IsRecordset(ids, rows) && Extends(old(rows), rows)
        invariant rows.Keys == old(rows).Keys + Members(ids)
        invariant forall j :: 0 <= j < i ==> ids[j] !in old(rows) && rows[ids[j]] == f(args[j], ids[j])
      {
        var id := Create(f(args[i], nextId));
        assert Members(ids + [id]) == Members(ids) + {id};
        ids := ids + [id];
        i := i + 1;
      }
    }

    /** `for rec in records: rec.write(f(rec))`, one record at a time. */
    method ApplyEach(ids: seq<nat>, f: R -> R)
      requires IsRecordset(ids, rows)
      modifies this
      ensures nextId == old(nextId)
      ensures rows == Updated(old(rows), (set k | k in ids), f)
    {
      var i := 0;
      while i < |ids|
        invariant 0 <= i <= |ids|
        invariant nextId == old(nextId)
        invariant rows.Keys == old(rows).Keys
        invariant forall k :: k in rows && k in ids[..i] ==> rows[k] == f(old(rows)[k])
        invariant forall k :: k in rows && k !in ids[..i] ==> rows[k] == old(rows)[k]
      {
        var id := ids[i];
        assert id !in ids[..i];
        rows := rows[id := f(rows[id])];
        assert ids[..i + 1] == ids[..i] + [id];
        i := i + 1;
      }
      assert ids[..i] == ids;
    }

    /** `for rec in records: rec.write(...)` where the values written depend on the record's
        position in the loop (a value drawn from a sequence or a random source per record). */
    method ApplyAt(ids: seq<nat>, f: (nat, nat, R) -> R)
      requires IsRecordset(ids, rows)
      modifies this
      ensures nextId == old(nextId) && rows.Keys == old(rows).Keys
      ensures forall i :: 0 <= i < |ids| ==> rows[ids[i]] == f(i, ids[i], old(rows)[ids[i]])
      ensures forall k :: k in rows && k !in ids ==> rows[k] == old(rows)[k]
    {
      var i := 0;
      while i < |ids|
        invariant 0 <= i <= |ids|
        invariant nextId == old(nextId) && rows.Keys == old(rows).Keys
        invariant forall j :: 0 <= j < i ==> rows[ids[j]] == f(j, ids[j], old(rows)[ids[j]])
        invariant forall k :: k in rows && k !in ids[..i] ==> rows[k] == old(rows)[k]
      {
        var id := ids[i];
        assert id !in ids[..i];
        rows := rows[id := f(i, id, rows[id])];
        assert ids[..i + 1] == ids[..i] + [id];
        i := i + 1;
      }
      assert ids[..i] == ids;
    }

    /** `for rec in records: ...` where each step rewrites the record and also yields a value
        (a mail sent, a line of a report); `f` gets the record's position in the loop. */
    method ApplyCollect<X>(ids: seq<nat>, f: (nat, R) -> (R, X)) returns (out: seq<X>)
      requires IsRecordset(ids, rows)
      modifies this
      ensures nextId == old(nextId) && rows.Keys == old(rows).Keys && |out| == |ids|
      ensures forall i :: 0 <= i < |ids| ==> rows[ids[i]] == f(i, old(rows)[ids[i]]).0 && out[i] == f(i, old(rows)[ids[i]]).1
      ensures forall k :: k in rows && k !in ids ==> rows[k] == old(rows)[k]
    {
      out := [];
      var i := 0;
      while i < |ids|
        invariant 0 <= i <= |ids| && |out| == i
        invariant nextId == old(nextId) && rows.Keys == old(rows).Keys
        invariant forall j :: 0 <= j < i ==> rows[ids[j]] == f(j, old(rows)[ids[j]]).0 && out[j] == f(j, old(rows)[ids[j]]).1
        invariant forall k :: k in rows && k !in ids[..i] ==> rows[k] == old(rows)[k]
      {
        var id := ids[i];
        assert id !in ids[..i];
        var step := f(i, rows[id]);
        rows := rows[id := step.0];
        out := out + [step.1];
        assert ids[..i + 1] == ids[..i] + [id];
        i := i + 1;
      }
      assert ids[..i] == ids;
    }

    /** `records.write(...)` on a recordset given as a set of ids, one record at a time. */
    method ApplyAll(ids: set<nat>, f: R -> R)
      requires ids <= rows.Keys
      modifies this
      ensures nextId == old(nextId)
      ensures rows == Updated(old(rows), ids, f)
    {
      var todo := ids;
      while todo != {}
        invariant todo <= ids && nextId == old(nextId)
        invariant rows == Updated(old(rows), ids - todo, f)
        decreases todo
      {
        var k :| k in todo;
        UpdatedStep(old(rows), ids - todo, k, f);
        rows := rows[k := f(rows[k])];
        todo := todo - {k};
        assert ids - todo == (ids - (todo + {k})) + {k};
      }
    }

    /** `records.unlink()`. */
    method Unlink(ids: set<nat>)
      modifies this
      ensures nextId == old(nextId)
      ensures rows == old(rows) - ids
    {
      rows := rows - ids;
    }
  }
}
