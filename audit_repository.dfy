/**
 * The scheduler audit repository: an append-only table of execution records with queries
 * that filter by task name and group, order newest first, take the most recent and count.
 */
module Audit {
  import opened Wrappers
  import opened Scheduling

  /** `AuditRequest`: what `create` is asked to store. */
  datatype AuditRequest = AuditRequest(
    taskName: string,
    taskGroup: string,
    fireTime: DateTime,
    runTime: int,
    outcome: TaskOutcome,
    log: Option<string>,
    detail: Option<string>)

  /** One row of the audit table: the request's fields, a generated id and the creation time. */
  datatype AuditRecord = AuditRecord(
    id: nat,
    taskName: string,
    taskGroup: string,
    fireTime: DateTime,
    runTime: int,
    outcome: TaskOutcome,
    log: Option<string>,
    detail: Option<string>,
    createdAt: DateTime)

  predicate Matches(r: AuditRecord, taskName: string, taskGroup: string) {
    r.taskName == taskName && r.taskGroup == taskGroup
  }

  /** Ordered by `createdAt`, most recent first. */
  predicate NewestFirst(s: seq<AuditRecord>) {
    forall i, j :: 0 <= i < j < |s| ==> s[i].createdAt >= s[j].createdAt
  }

  /** Places `r` before the first record that is not newer than it. */
  function InsertNewestFirst(r: AuditRecord, s: seq<AuditRecord>): (t: seq<AuditRecord>)
    ensures |t| == |s| + 1
  {
    if s == [] || s[0].createdAt <= r.createdAt then [r] + s
    else [s[0]] + InsertNewestFirst(r, s[1..])
  }

  /** No record of `s` was created after `bound`. */
  predicate NoneNewerThan(s: seq<AuditRecord>, bound: DateTime) {
    forall i :: 0 <= i < |s| ==> s[i].createdAt <= bound
  }

  lemma {:induction false} InsertBounded(r: AuditRecord, s: seq<AuditRecord>, bound: DateTime)
    requires NoneNewerThan(s, bound) && r.createdAt <= bound
    ensures NoneNewerThan(InsertNewestFirst(r, s), bound)
  {
    if s != [] && s[0].createdAt > r.createdAt {
      InsertBounded(r, s[1..], bound);
    }
  }

  /** Inserting adds exactly `r`. */
  lemma {:induction false} InsertAddsOne(r: AuditRecord, s: seq<AuditRecord>)
    ensures multiset(InsertNewestFirst(r, s)) == multiset(s) + multiset{r}
  {
    if s != [] && s[0].createdAt > r.createdAt {
      InsertAddsOne(r, s[1..]);
      assert s == [s[0]] + s[1..];
    }
  }

  /** Inserting into a newest-first list keeps it newest first. */
  lemma {:induction false} InsertKeepsOrder(r: AuditRecord, s: seq<AuditRecord>)
    requires NewestFirst(s)
    ensures NewestFirst(InsertNewestFirst(r, s))
  {
    if s != [] && s[0].createdAt > r.createdAt {
      var rest := InsertNewestFirst(r, s[1..]);
      InsertKeepsOrder(r, s[1..]);
      InsertBounded(r, s[1..], s[0].createdAt);
      var t := [s[0]] + rest;
      assert t == InsertNewestFirst(r, s);
      forall i, j | 0 <= i < j < |t|
        ensures t[i].createdAt >= t[j].createdAt
      {
        if i == 0 {
          assert t[j] == rest[j - 1];
        } else {
          assert t[i] == rest[i - 1] && t[j] == rest[j - 1];
        }
      }
    }
  }

  /**
   * `ORDER BY createdAt DESC`. The table leaves the order of equal timestamps open; here the
   * later-inserted record comes first among them.
   */
  function SortNewestFirst(s: seq<AuditRecord>): (t: seq<AuditRecord>)
    ensures NewestFirst(t)
    ensures multiset(t) == multiset(s)
    ensures |t| == |s|
  {
    if s == [] then []
    else
      var init := SortNewestFirst(s[..|s| - 1]);
      InsertKeepsOrder(s[|s| - 1], init);
      InsertAddsOne(s[|s| - 1], init);
      assert s == s[..|s| - 1] + [s[|s| - 1]];
      InsertNewestFirst(s[|s| - 1], init)
  }

  /** `WHERE taskName = ? AND taskGroup = ?`, in table order. */
  function Matching(table: seq<AuditRecord>, taskName: string, taskGroup: string): (rows: seq<AuditRecord>)
    ensures forall r :: r in rows <==> r in table && Matches(r, taskName, taskGroup)
    ensures forall r :: multiset(rows)[r] == if Matches(r, taskName, taskGroup) then multiset(table)[r] else 0
  {
    if table == [] then []
    else
      assert table == [table[0]] + table[1..];
      (if Matches(table[0], taskName, taskGroup) then [table[0]] else []) + Matching(table[1..], taskName, taskGroup)
  }

  /** `findAll`: every record, newest first. */
  function FindAll(table: seq<AuditRecord>): (rows: seq<AuditRecord>)
    ensures NewestFirst(rows)
    ensures multiset(rows) == multiset(table)
  {
    SortNewestFirst(table)
  }

  /** `find(taskName, taskGroup)`: exactly the records of that task, newest first. */
  function Find(table: seq<AuditRecord>, taskName: string, taskGroup: string): (rows: seq<AuditRecord>)
    ensures NewestFirst(rows)
    ensures multiset(rows) == multiset(Matching(table, taskName, taskGroup))
    ensures forall r :: r in rows <==> r in table && Matches(r, taskName, taskGroup)
  {
    var rows := SortNewestFirst(Matching(table, taskName, taskGroup));
    assert forall r :: r in rows <==> r in multiset(rows);
    rows
  }

  /** Kotlin's `singleOrNull()`. */
  function SingleOrNull<T>(s: seq<T>): Option<T> {
    if |s| == 1 then Some(s[0]) else None
  }

  /** `mostRecent(taskName, taskGroup)`: the same query with `LIMIT 1`, then `singleOrNull()`. */
  function MostRecent(table: seq<AuditRecord>, taskName: string, taskGroup: string): (r: Option<AuditRecord>)
    ensures r.None? <==> Find(table, taskName, taskGroup) == []
    ensures r.Some? ==> r == Some(Find(table, taskName, taskGroup)[0])
  {
    var rows := Find(table, taskName, taskGroup);
    SingleOrNull(rows[..if |rows| < 1 then |rows| else 1])
  }

  /** `SELECT COUNT(*)` over the task's records, as a Long. */
  function CountRows(table: seq<AuditRecord>, taskName: string, taskGroup: string): (n: nat)
    ensures n == |Matching(table, taskName, taskGroup)|
  {
    if table == [] then 0
    else (if Matches(table[0], taskName, taskGroup) then 1 else 0) + CountRows(table[1..], taskName, taskGroup)
  }

  /** `Long.toInt()`: keeps the low 32 bits, read as a two's-complement Int. */
  function LongToInt(n: int): (i: int)
    ensures -0x8000_0000 <= i < 0x8000_0000
    ensures -0x8000_0000 <= n < 0x8000_0000 ==> i == n
    ensures (i - n) % 0x1_0000_0000 == 0
  {
    var low := n % 0x1_0000_0000;
    if low < 0x8000_0000 then low else low - 0x1_0000_0000
  }

  /**
   * `count(taskName, taskGroup)`: the number of the task's records cut to an Int, so it is
   * the length of `find` while that fits an Int.
   */
  function Count(table: seq<AuditRecord>, taskName: string, taskGroup: string): (c: int)
    ensures c == LongToInt(|Matching(table, taskName, taskGroup)|)
    ensures |Find(table, taskName, taskGroup)| < 0x8000_0000 ==> c == |Find(table, taskName, taskGroup)|
  {
    var rows := Find(table, taskName, taskGroup);
    assert |rows| == |multiset(rows)| == |Matching(table, taskName, taskGroup)|;
    LongToInt(CountRows(table, taskName, taskGroup))
  }

  /** The record `mostRecent` returns was created no earlier than any record of the task. */
  lemma MostRecentIsNewest(table: seq<AuditRecord>, taskName: string, taskGroup: string)
    ensures MostRecent(table, taskName, taskGroup).Some? ==>
      forall r :: r in table && Matches(r, taskName, taskGroup) ==>
        MostRecent(table, taskName, taskGroup).value.createdAt >= r.createdAt
  {
    var rows := Find(table, taskName, taskGroup);
    if rows != [] {
      forall r | r in table && Matches(r, taskName, taskGroup)
        ensures rows[0].createdAt >= r.createdAt
      {
        var j :| 0 <= j < |rows| && rows[j] == r;
        assert j == 0 || rows[0].createdAt >= rows[j].createdAt;
      }
    }
  }

  /** Appending one record adds one row to its own task's count and leaves every other task's count alone. */
  lemma {:induction false} CountRowsAfterAppend(table: seq<AuditRecord>, r: AuditRecord, taskName: string, taskGroup: string)
    ensures CountRows(table + [r], taskName, taskGroup)
      == CountRows(table, taskName, taskGroup) + (if Matches(r, taskName, taskGroup) then 1 else 0)
  {
    if table == [] {
      assert [r][1..] == [];
    } else {
      assert (table + [r])[1..] == table[1..] + [r];
      CountRowsAfterAppend(table[1..], r, taskName, taskGroup);
    }
  }

  /** `create` then `count`: the created task's count grows by one while it fits an Int. */
  lemma CountAfterCreate(table: seq<AuditRecord>, r: AuditRecord, taskName: string, taskGroup: string)
    requires CountRows(table, taskName, taskGroup) + 1 < 0x8000_0000
    ensures Matches(r, taskName, taskGroup) ==>
      Count(table + [r], taskName, taskGroup) == Count(table, taskName, taskGroup) + 1
  {
    CountRowsAfterAppend(table, r, taskName, taskGroup);
  }

  /** `create` then `count`: every other task's count is unchanged, however large. */
  lemma CountOthersAfterCreate(table: seq<AuditRecord>, r: AuditRecord, taskName: string, taskGroup: string)
    ensures !Matches(r, taskName, taskGroup) ==>
      Count(table + [r], taskName, taskGroup) == Count(table, taskName, taskGroup)
  {
    CountRowsAfterAppend(table, r, taskName, taskGroup);
  }

  /** The record `create` stores for `request`. */
  function RecordOf(id: nat, request: AuditRequest, createdAt: DateTime): (r: AuditRecord)
    ensures r.id == id && r.createdAt == createdAt
    ensures r.taskName == request.taskName && r.taskGroup == request.taskGroup
    ensures r.fireTime == request.fireTime && r.runTime == request.runTime
    ensures r.outcome == request.outcome && r.log == request.log && r.detail == request.detail
  {
    AuditRecord(id, request.taskName, request.taskGroup, request.fireTime, request.runTime,
                request.outcome, request.log, request.detail, createdAt)
  }

  class AuditRepository {
    /** The audit table, in insertion order. */
    var table: seq<AuditRecord>
    /** Stands in for the table's generated UUIDs: every id issued so far is below it. */
    var nextId: nat

    ghost predicate Valid()
      reads this
    {
      forall i :: 0 <= i < |table| ==> table[i].id < nextId
    }

    constructor ()
      ensures Valid() && table == []
    {
      table, nextId := [], 0;
    }

    /**
     * `create`: inserts one record with the request's fields and a fresh id, stamped with the
     * database's current time `now`, and returns the id; existing records are untouched.
     */
    method Create(request: AuditRequest, now: DateTime) returns (id: nat)
      requires Valid()
      modifies this
      ensures Valid()
      ensures forall i :: 0 <= i < |old(table)| ==> old(table)[i].id != id
      ensures table == old(table) + [RecordOf(id, request, now)]
    {
      id := nextId;
      table := table + [RecordOf(id, request, now)];
      nextId := nextId + 1;
    }
  }
}
