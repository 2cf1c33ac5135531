/** db/batch.go: groups executed row by row, in one transaction, in chunks, or each for itself. */
module BatchExec {
  import opened BatchGroups

  /** The rows in execution order: groups without fields are skipped. */
  function Order(gs: seq<Group>): seq<Row> {
    if gs == [] then [] else Order(gs[..|gs| - 1]) + RowsOf(gs[|gs| - 1])
  }

  function RowsOf(g: Group): seq<Row> {
    if g.fields == [] then [] else g.rows
  }

  /** After which rows a chunk ends: every `size` rows of a group, but not after its last row. */
  function Ends(n: nat, size: nat): (marks: seq<bool>)
    ensures |marks| == n
  {
    seq(n, i requires 0 <= i < n => size > 0 && (i + 1) % size == 0 && i + 1 < n)
  }

  function Marks(gs: seq<Group>, size: nat): (marks: seq<bool>)
    ensures |marks| == |Order(gs)|
  {
    if gs == [] then [] else Marks(gs[..|gs| - 1], size) + Ends(|RowsOf(gs[|gs| - 1])|, size)
  }

  /** The number of rows up to the last end of a chunk among the first n. */
  function LastMark(marks: seq<bool>, n: nat): (k: nat)
    requires n <= |marks|
    ensures k <= n
  {
    if n == 0 then 0 else if marks[n - 1] then n else LastMark(marks, n - 1)
  }

  /** Chunks of a group are full: the k-th ends after k * size rows, and only at the end of the group
      are as many rows as that left. */
  lemma {:induction false} ChunksAreFull(n: nat, size: nat, i: nat) returns (k: nat)
    requires size > 0 && i <= n
    ensures var c := LastMark(Ends(n, size), i);
      c == size * k && i - c <= size && (i < n ==> i - c < size) && (c == n ==> n == 0)
    decreases i
  {
    hide LastMark;
    LastMarkStep(Ends(n, size), i);
    if i == 0 {
      k := 0;
    } else {
      k := ChunksAreFull(n, size, i - 1);
      var c := LastMark(Ends(n, size), i - 1);
      Remainder(size, k, i - c);
      if Ends(n, size)[i - 1] {
        k := k + 1;
      }
    }
  }

  lemma LastMarkStep(marks: seq<bool>, n: nat)
    requires n <= |marks|
    ensures n == 0 ==> LastMark(marks, n) == 0
    ensures n > 0 ==> LastMark(marks, n) == if marks[n - 1] then n else LastMark(marks, n - 1)
  {
  }

  lemma Remainder(size: nat, k: nat, r: nat)
    requires 0 < r <= size
    ensures (size * k + r) % size == 0 <==> r == size
    ensures r == size ==> size * k + r == size * (k + 1)
  {
    var x := size * k + r;
    if r == size {
      assert x == size * (k + 1) + 0;
      Divided(size, k + 1, 0, x / size, x % size);
    } else {
      Divided(size, k, r, x / size, x % size);
    }
  }

  lemma Divided(size: nat, k: int, r: nat, q: int, m: int)
    requires size * k + r == size * q + m && r < size && 0 <= m < size
    ensures q == k && m == r
  {
    if q > k {
      Grows(size, q - k);
    } else if q < k {
      Grows(size, k - q);
    }
  }

  lemma Grows(size: nat, d: int)
    requires d >= 1
    ensures size * d >= size
  {
  }

  /** The executed rows that count for commits: not the n-th if it ends a chunk whose commit failed. */
  function Credited(marks: seq<bool>, n: nat, torn: bool): (m: nat)
    requires n <= |marks|
    ensures m <= n
  {
    if torn && n > 0 && marks[n - 1] then n - 1 else n
  }

  /** No chunk ends with the last row. */
  lemma {:induction false} MarksEnd(gs: seq<Group>, size: nat)
    ensures var marks := Marks(gs, size); marks != [] ==> !marks[|marks| - 1]
  {
    hide Marks, Order, RowsOf;
    if gs == [] {
      Starts(gs, size);
    } else {
      MarksEnd(gs[..|gs| - 1], size);
      OrderStep(gs, size);
    }
  }

  /** These rows stand in the order from `off` on, with the ends of their chunks. */
  ghost predicate Stands(order: seq<Row>, marks: seq<bool>, rows: seq<Row>, size: nat, off: nat) {
    && off + |rows| <= |order| == |marks|
    && forall i | 0 <= i < |rows| :: order[off + i] == rows[i] && marks[off + i] == Ends(|rows|, size)[i]
  }

  /** Group k stands in the execution order from the end of the groups before it. */
  lemma {:induction false} GroupAt(gs: seq<Group>, size: nat, k: nat)
    requires k < |gs|
    ensures var off, rows := |Order(gs[..k])|, RowsOf(gs[k]);
      && off + |rows| == |Order(gs[..k + 1])| <= |Order(gs)|
      && Stands(Order(gs), Marks(gs, size), rows, size, off)
    decreases |gs|
  {
    hide *;
    var init, last := gs[..|gs| - 1], gs[|gs| - 1];
    OrderStep(gs, size);
    assert gs[..k + 1][..k] == gs[..k];
    if k == |gs| - 1 {
      assert gs[..k + 1] == gs;
      StandsLast(Order(init), Marks(init, size), RowsOf(last), size);
    } else {
      GroupAt(init, size, k);
      assert init[..k] == gs[..k] && init[..k + 1] == gs[..k + 1];
      StandsStill(Order(init), Marks(init, size), RowsOf(gs[k]), size, |Order(gs[..k])|, RowsOf(last),
        Ends(|RowsOf(last)|, size));
    }
  }

  lemma OrderStep(gs: seq<Group>, size: nat)
    requires gs != []
    ensures var init, rows := gs[..|gs| - 1], RowsOf(gs[|gs| - 1]);
      Order(gs) == Order(init) + rows && Marks(gs, size) == Marks(init, size) + Ends(|rows|, size)
  {
  }

  lemma StandsLast(order: seq<Row>, marks: seq<bool>, rows: seq<Row>, size: nat)
    requires |order| == |marks|
    ensures Stands(order + rows, marks + Ends(|rows|, size), rows, size, |order|)
  {
  }

  lemma StandsStill(order: seq<Row>, marks: seq<bool>, rows: seq<Row>, size: nat, off: nat, more: seq<Row>,
      ends: seq<bool>)
    requires Stands(order, marks, rows, size, off) && |more| == |ends|
    ensures Stands(order + more, marks + ends, rows, size, off)
  {
  }

  lemma Starts(gs: seq<Group>, size: nat)
    ensures Order(gs[..0]) == [] && LastMark(Marks(gs, size), 0) == 0 && Total([]) == 0
  {
  }

  function Total(ns: seq<int>): int {
    if ns == [] then 0 else Total(ns[..|ns| - 1]) + ns[|ns| - 1]
  }

  /** The operations from `from` to `to` went well, but for the last one if there was an error. */
  ghost predicate Ran(fails: nat -> bool, from: nat, to: nat, err: bool) {
    && from <= to && (err ==> from < to && fails(to - 1))
    && forall k | from <= k < to && fails(k) :: err && k == to - 1
  }

  lemma RanOn(fails: nat -> bool, from: nat, mid: nat, to: nat, err: bool)
    requires Ran(fails, from, mid, false) && Ran(fails, mid, to, err)
    ensures Ran(fails, from, to, err)
  {
  }

  lemma NothingRan(fails: nat -> bool, at: nat)
    ensures Ran(fails, at, at, false)
  {
  }

  datatype Operation = Begin | Prepare | Execute | Commit

  /** A database: what is durable, what the open transaction holds, and which operations fail. */
  class Database {
    const fails: nat -> bool
    const affected: nat -> int
    var ops: nat
    var committed: seq<Row>
    var pending: seq<Row>
    /** Every row executed so far, what the database reported for each, and the last operation. */
    ghost var done: seq<Row>
    ghost var told: seq<int>
    ghost var last: Operation

    constructor (fails: nat -> bool, affected: nat -> int)
      ensures this.fails == fails && this.affected == affected && committed == [] && pending == [] && done == []
      ensures told == []
    {
      this.fails, this.affected := fails, affected;
      ops, committed, pending, done, told := 0, [], [], [], [];
    }

    ghost predicate Valid()
      reads this
    {
      done == committed + pending && |told| == |done|
    }

    /** Begin and Prepare: they change nothing, but may fail. */
    method Try(ghost op: Operation) returns (err: bool)
      modifies this`ops, this`last
      ensures Ran(fails, old(ops), ops, err) && last == op
    {
      last := op;
      err := fails(ops);
      ops := ops + 1;
    }

    method Exec(r: Row, inTx: bool) returns (err: bool, n: int)
      requires Valid() && (!inTx ==> pending == [])
      modifies this
      ensures Valid() && Ran(fails, old(ops), ops, err) && last == Execute
      ensures err ==> done == old(done) && told == old(told) && committed == old(committed)
      ensures !err ==> n == affected(old(ops)) && told == old(told) + [n]
      ensures !err ==> done == old(done) + [r] && committed == if inTx then old(committed) else done
    {
      err, n := fails(ops), affected(ops);
      ops := ops + 1;
      last := Execute;
      if err {
        return;
      }
      if inTx {
        pending := pending + [r];
      } else {
        committed := committed + [r];
      }
      done, told := done + [r], told + [n];
      assert pending == [] ==> committed == done;
    }

    method Commit() returns (err: bool)
      requires Valid()
      modifies this
      ensures Valid() && Ran(fails, old(ops), ops, err) && last == Operation.Commit
      ensures done == old(done) && told == old(told) && committed == if err then old(committed) else done
      ensures !err ==> pending == []
    {
      err := fails(ops);
      ops := ops + 1;
      last := Operation.Commit;
      if !err {
        committed := committed + pending;
        pending := [];
      }
    }
  }

  class BatchResult {
    var affected: int
    var counts: seq<int>

    constructor ()
      ensures affected == 0 && counts == []
    {
      affected, counts := 0, [];
    }

    method RecordResult(n: int)
      modifies this
      ensures counts == old(counts) + [n] && (old(affected) == Total(old(counts)) ==> affected == Total(counts))
    {
      assert (counts + [n])[..|counts|] == counts;
      counts := counts + [n];
      affected := affected + n;
    }
  }

  class Batch {
    const db: Database
    const batchSize: nat
    const commitOnBatchSize: bool
    /** The context carries a transaction. */
    var inTx: bool

    constructor (db: Database, batchSize: nat, commitOnBatchSize: bool, inTx: bool)
      ensures this.db == db && this.batchSize == batchSize && this.commitOnBatchSize == commitOnBatchSize
      ensures this.inTx == inTx
    {
      this.db, this.batchSize, this.commitOnBatchSize, this.inTx := db, batchSize, commitOnBatchSize, inTx;
    }

    predicate Chunking() {
      commitOnBatchSize && batchSize > 0
    }

    ghost predicate Valid()
      reads this, db
    {
      db.Valid() && (!inTx ==> db.pending == [])
    }

    /** beginForChunking: the batch owns a transaction when it commits in chunks. */
    method BeginForChunking() returns (err: bool)
      requires Valid()
      modifies this`inTx, db`ops, db`last
      ensures Valid() && Ran(db.fails, old(db.ops), db.ops, err) && (err ==> db.last.Begin?)
      ensures (!err && Chunking() ==> inTx) && (!Chunking() ==> inTx == old(inTx))
    {
      if !Chunking() || inTx {
        return false;
      }
      err := db.Try(Begin);
      if !err {
        inTx := true;
      }
    }

    /** The operation that failed is a commit. */
    ghost predicate Torn(err: bool)
      reads db`last
    {
      err && db.last.Commit?
    }

    /** commitChunk: commits and begins anew; nothing when chunked commits are off. */
    method CommitChunk() returns (err: bool)
      requires Valid() && (Chunking() ==> inTx)
      modifies db
      ensures Valid() && Ran(db.fails, old(db.ops), db.ops, err) && db.done == old(db.done) && db.told == old(db.told)
      ensures db.committed == if Chunking() && !Torn(err) then db.done else old(db.committed)
      ensures err ==> Chunking() && (db.last.Commit? || db.last.Begin?)
    {
      if !Chunking() {
        return false;
      }
      err := db.Commit();
      if err {
        return;
      }
      err := db.Try(Begin);
    }

    /** The end of a chunk inside a group: the statement is prepared anew. */
    method TurnChunk() returns (err: bool)
      requires Valid() && (Chunking() ==> inTx)
      modifies db
      ensures Valid() && Ran(db.fails, old(db.ops), db.ops, err) && db.done == old(db.done) && db.told == old(db.told)
      ensures db.committed == if Chunking() && !Torn(err) then db.done else old(db.committed)
      ensures err && !Chunking() ==> db.last.Prepare?
    {
      err := CommitChunk();
      if !err {
        err := db.Try(Prepare);
      }
    }

    method CommitTail() returns (err: bool)
      requires Valid() && (Chunking() ==> inTx)
      modifies db
      ensures Valid() && Ran(db.fails, old(db.ops), db.ops, err) && db.done == old(db.done) && db.told == old(db.told)
      ensures if !err && Chunking() then db.committed == db.done else db.committed == old(db.committed)
    {
      if !Chunking() {
        return false;
      }
      err := db.Commit();
    }

    /** n rows of the order are executed, and what is durable ends with the last chunk among them whose
        commit did not fail: without chunks all of them when each commits itself, none in a transaction. */
    ghost predicate Settled(c0: seq<Row>, d0: seq<Row>, order: seq<Row>, marks: seq<bool>, n: nat, err: bool)
      requires n <= |marks| == |order|
      reads this, db
    {
      && db.done == d0 + order[..n]
      && if !Chunking() then db.committed == if inTx then c0 else db.done
         else
           var c := LastMark(marks, Credited(marks, n, Torn(err)));
           db.committed == if c == 0 then c0 else d0 + order[..c]
    }

    /** Recorded is exactly what the database reported since it had reported t. */
    ghost predicate Reported(res: BatchResult, t: seq<int>)
      reads db, res
    {
      db.told == t + res.counts && res.affected == Total(res.counts)
    }

    /** One more row of the order. */
    method ExecRow(res: BatchResult, ghost c0: seq<Row>, ghost d0: seq<Row>, ghost order: seq<Row>,
                   ghost marks: seq<bool>, row: Row, ghost n: nat, ends: bool, ghost t: seq<int>)
      returns (err: bool, ghost k: nat)
      requires Valid() && (Chunking() ==> inTx) && n < |order| == |marks| && order[n] == row && marks[n] == ends
      requires Settled(c0, d0, order, marks, n, false) && Reported(res, t)
      requires !inTx && !Chunking() ==> c0 == d0
      modifies db, res
      ensures Valid() && Ran(db.fails, old(db.ops), db.ops, err)
      ensures Reported(res, t) && |res.counts| == |old(res.counts)| + (k - n)
      ensures n <= k <= n + 1 && (!err ==> k == n + 1) && k <= |order| && Settled(c0, d0, order, marks, k, err)
    {
      hide Total;
      var cnt;
      err, cnt := db.Exec(row, inTx);
      k := n;
      if err {
        return;
      }
      assert order[..n + 1] == order[..n] + [row];
      res.RecordResult(cnt);
      k := n + 1;
      if batchSize > 0 && ends {
        err := TurnChunk();
      }
    }

    /** The rows of one group, which stand in the order from `off` on. */
    method ExecGroup(res: BatchResult, ghost c0: seq<Row>, ghost d0: seq<Row>, ghost order: seq<Row>,
                     ghost marks: seq<bool>, rows: seq<Row>, ghost off: nat, ghost t: seq<int>)
      returns (err: bool, ghost n: nat)
      requires Valid() && (Chunking() ==> inTx) && |order| == |marks| && off <= |order|
      requires Stands(order, marks, rows, batchSize, off)
      requires Settled(c0, d0, order, marks, off, false) && Reported(res, t) && |res.counts| == off
      requires !inTx && !Chunking() ==> c0 == d0
      modifies db, res
      ensures Valid() && Ran(db.fails, old(db.ops), db.ops, err) && Reported(res, t) && |res.counts| == n
      ensures n <= |order| && (!err ==> n == off + |rows|) && Settled(c0, d0, order, marks, n, err)
    {
      hide LastMark, Total, Settled, Ran;
      n := off;
      err := false;
      NothingRan(db.fails, db.ops);
      for i := 0 to |rows|
        invariant Valid() && !err && n == off + i && Ran(db.fails, old(db.ops), db.ops, false)
        invariant Settled(c0, d0, order, marks, n, false)
        invariant |res.counts| == n && Reported(res, t)
      {
        var ends := batchSize > 0 && (i + 1) % batchSize == 0 && i + 1 < |rows|;
        assert order[off + i] == rows[i] && marks[off + i] == Ends(|rows|, batchSize)[i] == ends;
        ghost var ops := db.ops;
        err, n := ExecRow(res, c0, d0, order, marks, rows[i], n, ends, t);
        RanOn(db.fails, old(db.ops), ops, db.ops, err);
        if err {
          return;
        }
      }
    }

    /** execInsertGroups. On success all rows with fields are executed in group order and recorded, and
        committed if the batch owns the transaction. The first operation that fails ends it with an error;
        a prefix of the rows is then executed, and of these exactly the ones up to the end of the last chunk
        are durable, but for that chunk if it is its commit that failed. */
    method ExecInsertGroups(gs: seq<Group>) returns (res: BatchResult, err: bool, ghost n: nat)
      requires Valid()
      modifies this`inTx, db
      ensures Valid() && Ran(db.fails, old(db.ops), db.ops, err) && (!Chunking() ==> inTx == old(inTx))
      ensures n <= |Order(gs)| && (!err ==> n == |Order(gs)|)
      ensures |res.counts| == n && db.told == old(db.told) + res.counts && res.affected == Total(res.counts)
      ensures db.done == old(db.done) + Order(gs)[..n]
      ensures !err && Chunking() ==> db.committed == db.done
      ensures err && Chunking() ==>
        var marks := Marks(gs, batchSize);
        var c := LastMark(marks, Credited(marks, n, db.last.Commit?));
        db.committed == if c == 0 then old(db.committed) else old(db.done) + Order(gs)[..c]
      ensures !Chunking() ==> db.committed == if inTx then old(db.committed) else db.done
    {
      hide Order, Marks, LastMark, Ends, Total, Stands;
      Starts(gs, batchSize);
      ghost var c0, d0, order, marks := db.committed, db.done, Order(gs), Marks(gs, batchSize);
      ghost var t := db.told;
      res := new BatchResult();
      n := 0;
      assert t + res.counts == t;
      assert d0 + order[..0] == d0;
      err := BeginForChunking();
      if err {
        return;
      }
      for g := 0 to |gs|
        invariant Valid() && (Chunking() ==> inTx) && (!Chunking() ==> inTx == old(inTx)) && fresh(res)
        invariant Ran(db.fails, old(db.ops), db.ops, false)
        invariant n == |Order(gs[..g])| <= |order| && Settled(c0, d0, order, marks, n, false)
        invariant |res.counts| == n && Reported(res, t)
      {
        GroupAt(gs, batchSize, g);
        if |gs[g].fields| == 0 {
          continue;
        }
        err := db.Try(Prepare);
        if err {
          return;
        }
        err, n := ExecGroup(res, c0, d0, order, marks, gs[g].rows, n, t);
        if err {
          return;
        }
      }
      assert gs[..|gs|] == gs;
      MarksEnd(gs, batchSize);
      err := CommitTail();
    }
  }

  // ---- grouping and executing ----

  /** The group of x among the first groups has fields. */
  ghost predicate Executed(keep: Filter, table: string, gs: seq<Group>, ks: seq<string>, x: Row)
    requires |gs| == |ks|
  {
    exists i | 0 <= i < |gs| :: ks[i] == KeyOf(keep, table, x) && gs[i].fields != []
  }

  lemma {:induction false} OrderCounts(keep: Filter, table: string, rows: seq<Row>, gs: seq<Group>, ks: seq<string>,
      x: Row)
    requires |gs| == |ks| && forall i | 0 <= i < |gs| :: Filled(keep, table, rows, ks[i], gs[i])
    requires forall i, j | 0 <= i < j < |ks| :: ks[i] != ks[j]
    ensures multiset(Order(gs))[x] == if Executed(keep, table, gs, ks, x) then multiset(rows)[x] else 0
  {
    hide *;
    NoOrder(keep, table, x);
    if gs != [] {
      var n := |gs| - 1;
      OrderCounts(keep, table, rows, gs[..n], ks[..n], x);
      RowsCounts(keep, table, rows, ks[n], gs[n], x);
      OrderStep(gs, 0);
      ExecutedStep(keep, table, gs, ks, x);
      assert multiset(Order(gs))[x] == multiset(Order(gs[..n]))[x] + multiset(RowsOf(gs[n]))[x];
    }
  }

  lemma NoOrder(keep: Filter, table: string, x: Row)
    ensures Order([]) == [] && !Executed(keep, table, [], [], x)
  {
  }

  lemma RowsCounts(keep: Filter, table: string, rows: seq<Row>, k: string, g: Group, x: Row)
    requires Filled(keep, table, rows, k, g)
    ensures multiset(RowsOf(g))[x] == if KeyOf(keep, table, x) == k && g.fields != [] then multiset(rows)[x] else 0
  {
    hide Members, KeyOf;
    MembersCounts(keep, table, rows, k, x);
  }

  lemma ExecutedStep(keep: Filter, table: string, gs: seq<Group>, ks: seq<string>, x: Row)
    requires |gs| == |ks| > 0 && forall i, j | 0 <= i < j < |ks| :: ks[i] != ks[j]
    ensures var n := |gs| - 1;
      var before := Executed(keep, table, gs[..n], ks[..n], x);
      && (Executed(keep, table, gs, ks, x) <==> before || (KeyOf(keep, table, x) == ks[n] && gs[n].fields != []))
      && !(before && KeyOf(keep, table, x) == ks[n])
  {
    hide KeyOf;
    var n := |gs| - 1;
    assert forall i | 0 <= i < n :: gs[..n][i] == gs[i] && ks[..n][i] == ks[i];
  }

  /** The groups that grouping makes. */
  ghost predicate Grouped(keep: Filter, table: string, rows: seq<Row>, gs: seq<Group>) {
    var ks := KeysOf(keep, table, rows);
    |gs| == |ks| && forall i | 0 <= i < |gs| :: Filled(keep, table, rows, ks[i], gs[i])
  }

  /** A row is executed exactly when the first row of its group has fields. */
  lemma RowExecuted(keep: Filter, table: string, rows: seq<Row>, gs: seq<Group>, x: Row) returns (first: Row)
    requires Grouped(keep, table, rows, gs) && x in rows
    ensures first in rows && KeyOf(keep, table, first) == KeyOf(keep, table, x)
    ensures multiset(Order(gs))[x] == if FieldsOf(keep, table, first) == [] then 0 else multiset(rows)[x]
  {
    hide Members, KeysOf, KeyOf, Order;
    var ks := KeysOf(keep, table, rows);
    KeysDistinct(keep, table, rows);
    var i :| 0 <= i < |ks| && ks[i] == KeyOf(keep, table, x);
    assert Filled(keep, table, rows, ks[i], gs[i]);
    first := gs[i].rows[0];
    MembersHaveKey(keep, table, rows, ks[i]);
    assert first in Members(keep, table, rows, ks[i]);
    OrderCounts(keep, table, rows, gs, ks, x);
    assert forall j | 0 <= j < |ks| && ks[j] == ks[i] :: j == i;
  }

  lemma NotExecuted(keep: Filter, table: string, rows: seq<Row>, gs: seq<Group>, x: Row)
    requires Grouped(keep, table, rows, gs) && x !in rows
    ensures multiset(Order(gs))[x] == 0
  {
    hide KeysOf, KeyOf, Order, Filled;
    KeysDistinct(keep, table, rows);
    OrderCounts(keep, table, rows, gs, KeysOf(keep, table, rows), x);
  }

  /** The rows executed are the rows with fields, each as often as given, exactly when no row without
      fields shares a group with one that has some. In any case none is executed more often than given. */
  lemma OrderPermutes(keep: Filter, table: string, rows: seq<Row>, gs: seq<Group>)
    requires Grouped(keep, table, rows, gs)
    ensures multiset(Order(gs)) == multiset(WithFields(keep, table, rows)) <==> Apart(keep, table, rows)
    ensures multiset(Order(gs)) <= multiset(rows)
  {
    hide Grouped, KeyOf, Order, WithFields, FieldsOf;
    forall x
      ensures multiset(Order(gs))[x] <= multiset(rows)[x]
      ensures Apart(keep, table, rows) ==> multiset(Order(gs))[x] == multiset(WithFields(keep, table, rows))[x]
    {
      WithFieldsCounts(keep, table, rows, x);
      if x in rows {
        var first := RowExecuted(keep, table, rows, gs, x);
      } else {
        NotExecuted(keep, table, rows, gs, x);
      }
    }
    if !Apart(keep, table, rows) {
      var r, q :| r in rows && q in rows && KeyOf(keep, table, r) == KeyOf(keep, table, q)
        && FieldsOf(keep, table, r) == [] && FieldsOf(keep, table, q) != [];
      var first := RowExecuted(keep, table, rows, gs, r);
      WithFieldsCounts(keep, table, rows, r);
      WithFieldsCounts(keep, table, rows, q);
      SameGroup(keep, table, rows, gs, r, q);
    }
  }

  lemma SameGroup(keep: Filter, table: string, rows: seq<Row>, gs: seq<Group>, r: Row, q: Row)
    requires Grouped(keep, table, rows, gs) && r in rows && q in rows && KeyOf(keep, table, r) == KeyOf(keep, table, q)
    ensures multiset(Order(gs))[r] == 0 <==> multiset(Order(gs))[q] == 0
  {
    hide Order, Filled, KeyOf, KeysOf;
    KeysDistinct(keep, table, rows);
    OrderCounts(keep, table, rows, gs, KeysOf(keep, table, rows), r);
    OrderCounts(keep, table, rows, gs, KeysOf(keep, table, rows), q);
  }

  /** InsertWithTable: the rows executed are given ones; on success they are all rows with fields, each as
      often as given, exactly when no row without fields shares a group with one that has some; on an
      error the durable rows are a prefix of the executed ones. */
  method Insert(b: Batch, keep: Filter, table: string, rows: seq<Row>) returns (res: BatchResult, err: bool)
    requires b.Valid() && b.db.done == []
    modifies b`inTx, b.db
    ensures b.Valid() && Ran(b.db.fails, old(b.db.ops), b.db.ops, err)
    ensures res.counts == b.db.told && |res.counts| == |b.db.done| && res.affected == Total(res.counts)
    ensures multiset(b.db.done) <= multiset(rows)
    ensures !err ==> (multiset(b.db.done) == multiset(WithFields(keep, table, rows)) <==> Apart(keep, table, rows))
    ensures !err && Apart(keep, table, rows) ==> forall x: Row ::
      multiset(b.db.done)[x] ==
        if keep(if table != "" then table else x.table, x.names) == [] then 0 else multiset(rows)[x]
    ensures Apart(keep, table, rows) ==> multiset(b.db.done) <= multiset(WithFields(keep, table, rows))
    ensures !err && (b.Chunking() || !b.inTx) ==> b.db.committed == b.db.done
    ensures err ==> b.db.committed <= b.db.done
  {
    hide Order, Marks, KeysOf, WithFields, LastMark, Filled, Apart;
    var gs := GroupRows(keep, table, rows);
    OrderPermutes(keep, table, rows, gs);
    ghost var n;
    res, err, n := b.ExecInsertGroups(gs);
    assert b.db.done == Order(gs)[..n] && b.db.told == res.counts;
    assert Order(gs) == Order(gs)[..n] + Order(gs)[n..];
    assert Order(gs)[..|Order(gs)|] == Order(gs);
    forall x: Row
      ensures multiset(WithFields(keep, table, rows))[x] ==
        if keep(if table != "" then table else x.table, x.names) == [] then 0 else multiset(rows)[x]
    {
      WithFieldsCounts(keep, table, rows, x);
    }
  }
}
