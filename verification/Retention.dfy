/**
 Which rows a replica keeps. An eviction or a resync deletes the complement of what the
 live subscriptions claim, with SQL's three-valued logic. A departure notice is honoured
 unless some other subscription still covers the row.
 */
module Retention {
  import opened Common

  // ---- SQL truth ----

  datatype Truth = TRUE | FALSE | NULL

  function Or(a: Truth, b: Truth): Truth {
    if a.TRUE? || b.TRUE? then TRUE else if a.NULL? || b.NULL? then NULL else FALSE
  }

  function Not(a: Truth): Truth {
    match a case TRUE => FALSE case FALSE => TRUE case NULL => NULL
  }

  function Truly(b: bool): Truth { if b then TRUE else FALSE }

  // ---- rows and claims ----

  type Table = string
  type Key = Bytes
  type Row = map<string, Option<Bytes>>
  type Database = map<Table, map<Key, Row>>

  type Predicate = Row -> Truth

  /** The tables a row subscription reads and its filter. Without a filter it wants every row. */
  datatype Coverage = Coverage(tables: set<Table>, filter: Option<Predicate>)

  /** A declared subscription. An aggregate covers no rows. */
  datatype Record = Record(sub: string, live: bool, coverage: Option<Coverage>)

  datatype Stale = Nothing | Emptied(table: Table) | Everything {
    predicate Covers(t: Table) {
      match this case Nothing => false case Emptied(e) => e == t case Everything => true
    }
  }

  /** The record counts: live, not the excluded one, and over this table. */
  predicate Claims(r: Record, exclude: Option<string>, t: Table) {
    exclude != Some(r.sub) && r.live && r.coverage.Some? && t in r.coverage.value.tables
  }

  predicate ClaimsWhole(r: Record, exclude: Option<string>, t: Table) {
    Claims(r, exclude, t) && r.coverage.value.filter.None?
  }

  predicate ClaimsSome(r: Record, exclude: Option<string>, t: Table) {
    Claims(r, exclude, t) && r.coverage.value.filter.Some?
  }

  function Judges(r: Record, row: Row): Truth
    requires r.coverage.Some? && r.coverage.value.filter.Some?
  {
    r.coverage.value.filter.value(row)
  }

  /** What may keep a row: the filter of a subscription that stays, or the row being one of a pending write's. */
  datatype Clause = Filter(test: Predicate) | Spare(key: Key) {
    function Holds(key: Key, row: Row): Truth {
      match this
      case Filter(p) => p(row)
      case Spare(k) => Truly(k == key)
    }
  }

  /** The clauses joined by `OR`. */
  function AnyHolds(clauses: seq<Clause>, key: Key, row: Row): Truth
    requires clauses != []
    decreases |clauses|
  {
    if |clauses| == 1 then clauses[0].Holds(key, row)
    else Or(AnyHolds(clauses[..|clauses| - 1], key, row), clauses[|clauses| - 1].Holds(key, row))
  }

  /** Whether `DELETE ... WHERE NOT (...)` takes the row: only where the condition is true. */
  predicate Taken(kept: seq<Clause>, key: Key, row: Row) {
    kept == [] || Not(AnyHolds(kept, key, row)).TRUE?
  }

  lemma {:induction false} AnyHoldsExactly(clauses: seq<Clause>, key: Key, row: Row)
    requires clauses != []
    ensures AnyHolds(clauses, key, row).TRUE? <==> exists i :: 0 <= i < |clauses| && clauses[i].Holds(key, row).TRUE?
    ensures AnyHolds(clauses, key, row).FALSE? <==> forall i :: 0 <= i < |clauses| ==> clauses[i].Holds(key, row).FALSE?
    decreases |clauses|
  {
    if |clauses| > 1 {
      var init := clauses[..|clauses| - 1];
      AnyHoldsExactly(init, key, row);
      forall i | 0 <= i < |init| ensures init[i] == clauses[i] {}
      if exists i :: 0 <= i < |clauses| && clauses[i].Holds(key, row).TRUE? {
        var i :| 0 <= i < |clauses| && clauses[i].Holds(key, row).TRUE?;
        assert i < |init| ==> init[i].Holds(key, row).TRUE?;
      }
    }
  }

  /** The delete takes a row exactly when every clause is false of it. A null keeps it. */
  lemma TakenExactly(kept: seq<Clause>, key: Key, row: Row)
    ensures Taken(kept, key, row) <==> forall i :: 0 <= i < |kept| ==> kept[i].Holds(key, row).FALSE?
  {
    if kept != [] {
      AnyHoldsExactly(kept, key, row);
    }
  }

  // ---- the complement of the union ----

  type Spared = set<(Table, Key)>

  /** What the delete must remove, said of one row. */
  ghost predicate Removable(declared: seq<Record>, exclude: Option<string>, stale: Stale, spare: Spared, t: Table, key: Key, row: Row) {
    || stale.Covers(t)
    || (&& (forall r :: r in declared ==> !ClaimsWhole(r, exclude, t))
        && (forall r :: r in declared && ClaimsSome(r, exclude, t) ==> Judges(r, row).FALSE?)
        && (t, key) !in spare)
  }

  /** The filters the records still hold over a table, in declaration order. */
  function Filters(declared: seq<Record>, exclude: Option<string>, t: Table): (s: seq<Clause>)
    ensures forall c :: c in s ==> exists r :: r in declared && ClaimsSome(r, exclude, t) && c == Filter(r.coverage.value.filter.value)
    ensures forall r :: r in declared && ClaimsSome(r, exclude, t) ==> Filter(r.coverage.value.filter.value) in s
  {
    if declared == [] then []
    else
      assert declared == declared[..|declared| - 1] + [declared[|declared| - 1]];
      var r := declared[|declared| - 1];
      var rest := Filters(declared[..|declared| - 1], exclude, t);
      if ClaimsSome(r, exclude, t) then rest + [Filter(r.coverage.value.filter.value)] else rest
  }

  ghost predicate Untouchable(declared: seq<Record>, exclude: Option<string>, t: Table) {
    exists r :: r in declared && ClaimsWhole(r, exclude, t)
  }

  /** The spared keys of one table, as clauses. */
  ghost predicate ListsSpares(spare: Spared, t: Table, s: seq<Clause>) {
    && (forall c :: c in s ==> c.Spare? && (t, c.key) in spare)
    && (forall k :: (t, k) in spare ==> Spare(k) in s)
  }

  lemma TakenIsRemovable(declared: seq<Record>, exclude: Option<string>, spare: Spared, t: Table, spares: seq<Clause>, key: Key, row: Row)
    requires !Untouchable(declared, exclude, t) && ListsSpares(spare, t, spares)
    ensures Taken(Filters(declared, exclude, t) + spares, key, row) <==> Removable(declared, exclude, Nothing, spare, t, key, row)
  {
    var filters := Filters(declared, exclude, t);
    var kept := filters + spares;
    TakenExactly(kept, key, row);
    if Taken(kept, key, row) {
      forall r | r in declared && ClaimsSome(r, exclude, t) ensures Judges(r, row).FALSE? {
        var i :| 0 <= i < |filters| && filters[i] == Filter(r.coverage.value.filter.value);
        assert kept[i] == filters[i];
      }
      forall i | 0 <= i < |spares| ensures spares[i] != Spare(key) {
        assert kept[|filters| + i] == spares[i];
      }
    }
    if Removable(declared, exclude, Nothing, spare, t, key, row) {
      forall i | 0 <= i < |kept| ensures kept[i].Holds(key, row).FALSE? {
        if i < |filters| {
          assert filters[i] in filters;
        } else {
          assert spares[i - |filters|] in spares;
        }
      }
    }
  }

  /** The database without the removable rows of the scoped tables. */
  ghost predicate Deleted(declared: seq<Record>, exclude: Option<string>, stale: Stale, spare: Spared, scope: set<Table>, before: Database, after: Database) {
    && after.Keys == before.Keys
    && (forall t :: t in before ==>
          if t in scope then KeepsExactly(declared, exclude, stale, spare, t, before[t], after[t]) else after[t] == before[t])
  }

  ghost predicate KeepsExactly(declared: seq<Record>, exclude: Option<string>, stale: Stale, spare: Spared, t: Table, before: map<Key, Row>, after: map<Key, Row>) {
    && (forall k :: k in after <==> k in before && !Removable(declared, exclude, stale, spare, t, k, before[k]))
    && (forall k :: k in after ==> after[k] == before[k])
  }

  function DeleteWhere(rows: map<Key, Row>, kept: seq<Clause>): map<Key, Row> {
    map k | k in rows && !Taken(kept, k, rows[k]) :: rows[k]
  }

  method ListSpares(spare: Spared, t: Table) returns (s: seq<Clause>)
    ensures ListsSpares(spare, t, s)
  {
    s := [];
    var todo := spare;
    while todo != {}
      invariant todo <= spare
      invariant forall c :: c in s ==> c.Spare? && (t, c.key) in spare
      invariant forall k :: (t, k) in spare && (t, k) !in todo ==> Spare(k) in s
      decreases |todo|
    {
      var x :| x in todo;
      if x.0 == t {
        s := s + [Spare(x.1)];
      }
      todo := todo - {x};
    }
  }

  lemma UntouchableSnoc(declared: seq<Record>, r: Record, exclude: Option<string>, t: Table)
    ensures Untouchable(declared + [r], exclude, t) <==> Untouchable(declared, exclude, t) || ClaimsWhole(r, exclude, t)
  {}

  lemma ClaimsSnoc(declared: seq<Record>, i: nat, exclude: Option<string>, t: Table)
    requires i < |declared|
    ensures Untouchable(declared[..i + 1], exclude, t) <==> Untouchable(declared[..i], exclude, t) || ClaimsWhole(declared[i], exclude, t)
    ensures Filters(declared[..i + 1], exclude, t) ==
            Filters(declared[..i], exclude, t)
            + if ClaimsSome(declared[i], exclude, t) then [Filter(declared[i].coverage.value.filter.value)] else []
  {
    var upTo := declared[..i + 1];
    assert upTo[..|upTo| - 1] == declared[..i] && upTo[|upTo| - 1] == declared[i];
    assert upTo == declared[..i] + [declared[i]];
    UntouchableSnoc(declared[..i], declared[i], exclude, t);
  }

  /** What the other live subscriptions want of one table: their filters, or all of it. */
  method GatherClaims(declared: seq<Record>, exclude: Option<string>, t: Table) returns (filters: seq<Clause>, untouchable: bool)
    ensures filters == Filters(declared, exclude, t)
    ensures untouchable == Untouchable(declared, exclude, t)
  {
    filters, untouchable := [], false;
    for i := 0 to |declared|
      invariant filters == Filters(declared[..i], exclude, t)
      invariant untouchable == Untouchable(declared[..i], exclude, t)
    {
      var record := declared[i];
      ClaimsSnoc(declared, i, exclude, t);
      if exclude != Some(record.sub) && record.live && record.coverage.Some? && t in record.coverage.value.tables {
        match record.coverage.value.filter
        case Some(p) => filters := filters + [Filter(p)];
        case None => untouchable := true;
      }
    }
    assert declared[..|declared|] == declared;
  }

  /** Walks the scope and deletes what nothing covers, as both a clear and an unsubscribe do. */
  method DeleteUncovered(db: Database, declared: seq<Record>, scope: set<Table>, exclude: Option<string>, stale: Stale, spare: Spared)
    returns (after: Database)
    ensures Deleted(declared, exclude, stale, spare, scope, db, after)
  {
    after := db;
    var todo := scope;
    while todo != {}
      invariant todo <= scope
      invariant Deleted(declared, exclude, stale, spare, scope - todo, db, after)
      decreases |todo|
    {
      var t :| t in todo;
      if t in db {
        assert after[t] == db[t];
        var rows := DeleteFrom(db[t], declared, t, exclude, stale, spare);
        after := after[t := rows];
      }
      todo := todo - {t};
    }
  }

  method DeleteFrom(rows: map<Key, Row>, declared: seq<Record>, t: Table, exclude: Option<string>, stale: Stale, spare: Spared)
    returns (after: map<Key, Row>)
    ensures KeepsExactly(declared, exclude, stale, spare, t, rows, after)
  {
    var truncated := stale.Covers(t);
    var filters, untouchable := GatherClaims(declared, exclude, t);
    if untouchable && !truncated {
      return rows;
    }
    var kept: seq<Clause> := [];
    if !truncated {
      var spares := ListSpares(spare, t);
      kept := filters + spares;
      forall k | k in rows ensures Taken(kept, k, rows[k]) <==> Removable(declared, exclude, stale, spare, t, k, rows[k]) {
        TakenIsRemovable(declared, exclude, spare, t, spares, k, rows[k]);
      }
    }
    after := DeleteWhere(rows, kept);
  }

  // ---- eviction ----

  /** One operation of a queued changeset: its row, and whether the replica's catalog names every key column. */
  datatype Touch = Touch(table: Table, key: Key, complete: bool)

  ghost predicate Touched(pending: seq<seq<Touch>>, t: Table, k: Key) {
    exists i, j :: 0 <= i < |pending| && 0 <= j < |pending[i]| && pending[i][j] == Touch(t, k, true)
  }

  /** The rows some unanswered write touches. */
  method PendingSpare(pending: seq<seq<Touch>>) returns (spare: Spared)
    ensures forall t, k :: (t, k) in spare <==> Touched(pending, t, k)
  {
    spare := {};
    for i := 0 to |pending|
      invariant forall t, k :: (t, k) in spare <==> Touched(pending[..i], t, k)
    {
      var ops := pending[i];
      ghost var before := spare;
      for j := 0 to |ops|
        invariant forall t, k :: (t, k) in spare <==> (t, k) in before || Touch(t, k, true) in ops[..j]
      {
        if ops[j].complete {
          spare := spare + {(ops[j].table, ops[j].key)};
        }
        assert ops[..j + 1] == ops[..j] + [ops[j]];
      }
      assert ops[..|ops|] == ops;
      TouchedSnoc(pending, i);
    }
    assert pending[..|pending|] == pending;
  }

  lemma TouchedSnoc(pending: seq<seq<Touch>>, i: nat)
    requires i < |pending|
    ensures forall t, k :: Touched(pending[..i + 1], t, k) <==> Touched(pending[..i], t, k) || Touch(t, k, true) in pending[i]
  {}

  /** What a subscription covers, when it is declared and holds rows. */
  function CoverageOf(declared: seq<Record>, sub: string): Option<Coverage>
    decreases |declared|
  {
    if declared == [] then None
    else if declared[0].sub == sub then declared[0].coverage
    else CoverageOf(declared[1..], sub)
  }

  /** What an unsubscribe takes: online, the rows only this subscription kept. Offline nothing. */
  method EvictSubscriptionRows(db: Database, declared: seq<Record>, sub: string, connected: bool, pending: seq<seq<Touch>>)
    returns (after: Database)
    ensures !connected || CoverageOf(declared, sub).None? ==> after == db
    ensures connected && CoverageOf(declared, sub).Some? ==>
              exists spare: Spared ::
                && (forall t, k :: (t, k) in spare <==> Touched(pending, t, k))
                && Deleted(declared, Some(sub), Nothing, spare, CoverageOf(declared, sub).value.tables, db, after)
  {
    if !connected {
      return db;
    }
    var coverage := CoverageOf(declared, sub);
    if coverage.None? {
      return db;
    }
    var spare := PendingSpare(pending);
    after := DeleteUncovered(db, declared, coverage.value.tables, Some(sub), Nothing, spare);
  }

  /** Deleting again deletes nothing more. */
  lemma RepeatedDeleteIsOne(declared: seq<Record>, exclude: Option<string>, stale: Stale, spare: Spared, scope: set<Table>,
                            db: Database, once: Database, twice: Database)
    requires Deleted(declared, exclude, stale, spare, scope, db, once)
    requires Deleted(declared, exclude, stale, spare, scope, once, twice)
    ensures once == twice
  {
    forall t | t in once ensures once[t] == twice[t] {
      if t in scope {
        assert KeepsExactly(declared, exclude, stale, spare, t, db[t], once[t]);
        assert KeepsExactly(declared, exclude, stale, spare, t, once[t], twice[t]);
      }
    }
  }

  // ---- departures ----

  ghost predicate Held(db: Database, t: Table, key: Key) { t in db && key in db[t] }

  /** Some other live subscription claims the whole table, or its filter is true of the held row. */
  ghost predicate Withheld(db: Database, declared: seq<Record>, addressed: Option<string>, t: Table, key: Key) {
    || (exists r :: r in declared && ClaimsWhole(r, addressed, t))
    || (Held(db, t, key) && exists r :: r in declared && ClaimsSome(r, addressed, t) && Judges(r, db[t][key]).TRUE?)
  }

  /** Whether the statement selecting the row under its clauses finds it. */
  predicate Present(db: Database, t: Table, key: Key, clauses: seq<Clause>)
    requires clauses != []
  {
    t in db && key in db[t] && AnyHolds(clauses, key, db[t][key]).TRUE?
  }

  lemma PresentIsWithheld(db: Database, declared: seq<Record>, addressed: Option<string>, t: Table, key: Key)
    requires !Untouchable(declared, addressed, t) && Filters(declared, addressed, t) != []
    ensures Present(db, t, key, Filters(declared, addressed, t)) <==> Withheld(db, declared, addressed, t, key)
  {}

  method StillCovered(db: Database, declared: seq<Record>, t: Table, key: Key, addressed: Option<string>) returns (covered: bool)
    ensures covered <==> Withheld(db, declared, addressed, t, key)
  {
    var clauses: seq<Clause> := [];
    for i := 0 to |declared|
      invariant clauses == Filters(declared[..i], addressed, t)
      invariant !Untouchable(declared[..i], addressed, t)
    {
      var record := declared[i];
      ClaimsSnoc(declared, i, addressed, t);
      if addressed != Some(record.sub) && record.live && record.coverage.Some? && t in record.coverage.value.tables {
        match record.coverage.value.filter
        case None => return true;
        case Some(p) => clauses := clauses + [Filter(p)];
      }
    }
    assert declared[..|declared|] == declared;
    if clauses == [] {
      return false;
    }
    PresentIsWithheld(db, declared, addressed, t, key);
    return Present(db, t, key, clauses);
  }

  datatype PatchOp = Departure(table: Table, key: Key) | Ordinary

  datatype Verdict = Unchanged | Dropped | Only(kept: seq<PatchOp>)

  /** The departures no other subscription still wants, in order. */
  ghost function Honoured(db: Database, declared: seq<Record>, addressed: Option<string>, ops: seq<PatchOp>): seq<PatchOp>
    requires forall op :: op in ops ==> op.Departure?
  {
    if ops == [] then []
    else
      var init, op := ops[..|ops| - 1], ops[|ops| - 1];
      var rest := Honoured(db, declared, addressed, init);
      if Withheld(db, declared, addressed, op.table, op.key) then rest else rest + [op]
  }

  /** What of a patch to apply: all of it, unless it is nothing but departure notices. */
  method HonourDepartures(db: Database, declared: seq<Record>, ops: seq<PatchOp>, addressed: Option<string>) returns (v: Verdict)
    ensures v.Unchanged? <==> ops == [] || exists op :: op in ops && op.Ordinary?
    ensures !v.Unchanged? ==>
              var kept := Honoured(db, declared, addressed, ops);
              v == if kept == [] then Dropped else Only(kept)
  {
    for i := 0 to |ops|
      invariant forall k :: 0 <= k < i ==> ops[k].Departure?
    {
      if ops[i].Ordinary? {
        return Unchanged;
      }
    }
    if ops == [] {
      return Unchanged;
    }
    var kept: seq<PatchOp> := [];
    for i := 0 to |ops|
      invariant kept == Honoured(db, declared, addressed, ops[..i])
    {
      var upTo := ops[..i + 1];
      assert upTo[..|upTo| - 1] == ops[..i] && upTo[|upTo| - 1] == ops[i];
      var covered := StillCovered(db, declared, ops[i].table, ops[i].key, addressed);
      if !covered {
        kept := kept + [ops[i]];
      }
    }
    assert ops[..|ops|] == ops;
    return if kept == [] then Dropped else Only(kept);
  }

  /** A departure is honoured exactly on the rows it names and no other subscription wants. */
  lemma {:induction false} HonouredExactly(db: Database, declared: seq<Record>, addressed: Option<string>, ops: seq<PatchOp>, op: PatchOp)
    requires forall o :: o in ops ==> o.Departure?
    ensures op in Honoured(db, declared, addressed, ops) <==> op in ops && !Withheld(db, declared, addressed, op.table, op.key)
    decreases |ops|
  {
    if ops != [] {
      var init := ops[..|ops| - 1];
      HonouredExactly(db, declared, addressed, init, op);
      assert ops == init + [ops[|ops| - 1]];
    }
  }

  // ---- the two rules compared ----

  /**
   Pending spares aside, a held row an eviction may delete is one a departure may delete,
   and the two differ exactly on rows of which some filter is null.
   */
  lemma EvictionWithinDeparture(db: Database, declared: seq<Record>, exclude: Option<string>, t: Table, key: Key)
    requires Held(db, t, key)
    ensures Removable(declared, exclude, Nothing, {}, t, key, db[t][key]) <==>
            && !Withheld(db, declared, exclude, t, key)
            && (forall r :: r in declared && ClaimsSome(r, exclude, t) ==> !Judges(r, db[t][key]).NULL?)
  {}

  /** A row some other live subscription's filter is not FALSE of outlives every eviction. */
  lemma WantedRowsStay(declared: seq<Record>, exclude: Option<string>, spare: Spared, scope: set<Table>,
                       db: Database, after: Database, t: Table, key: Key, r: Record)
    requires Deleted(declared, exclude, Nothing, spare, scope, db, after) && Held(db, t, key)
    requires r in declared && Claims(r, exclude, t)
    requires r.coverage.value.filter.Some? ==> !Judges(r, db[t][key]).FALSE?
    ensures Held(after, t, key) && after[t][key] == db[t][key]
  {}
}
