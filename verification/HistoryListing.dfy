/** The account-support history: three event tables merged, filtered, and paged under a snapshot time. */
module HistoryListing {
  import opened Options
  import opened KeysetPaging

  /** The columns a filter can see. Account events carry no correlation id. The key's source column
      ranks account, activity and audit in collation order. */
  datatype Entry = Entry(eventType: string, correlationId: Option<string>)

  type Table = map<Key, Entry>

  datatype Filters = Filters(
    source: Option<nat>, eventType: Option<string>, correlationId: Option<string>,
    since: Option<int>, until: Option<int>, order: Order)

  predicate Matches(f: Filters, snapshot: int, k: Key, e: Entry) {
    && k.time <= snapshot
    && (f.source.Some? ==> k.source == f.source.value)
    && (f.eventType.Some? ==> e.eventType == f.eventType.value)
    && (f.correlationId.Some? ==> e.correlationId == f.correlationId)
    && (f.since.Some? ==> f.since.value <= k.time)
    && (f.until.Some? ==> k.time < f.until.value)
  }

  predicate Wanted(f: Filters, snapshot: int, cursor: Option<Key>, k: Key, e: Entry) {
    Matches(f, snapshot, k, e) && (cursor.Some? ==> Before(f.order, cursor.value, k))
  }

  // ---------- building the parameterised query ----------

  datatype Value = UserId | Time(t: int) | Text(s: string) | Id(id: nat) | Rank(r: nat) | Count(n: nat)

  datatype Column = Snapshot | SourceColumn | EventColumn | CorrelationColumn | Since | Until

  /** A condition names its parameters by position, counted from one. */
  datatype Condition = Compare(column: Column, p: nat) | Beyond(order: Order, t: nat, id: nat, source: nat)

  /** What a comparison means once its parameter has a value. */
  predicate Test(column: Column, v: Value, k: Key, e: Entry) {
    match column
    case Snapshot => v.Time? && k.time <= v.t
    case SourceColumn => v.Rank? && k.source == v.r
    case EventColumn => v.Text? && e.eventType == v.s
    case CorrelationColumn => v.Text? && e.correlationId == Some(v.s)
    case Since => v.Time? && v.t <= k.time
    case Until => v.Time? && k.time < v.t
  }

  predicate Bound(c: Condition, n: nat) {
    match c
    case Compare(_, p) => 1 <= p <= n
    case Beyond(_, t, id, source) => 1 <= t <= n && 1 <= id <= n && 1 <= source <= n
  }

  predicate Eval(c: Condition, values: seq<Value>, k: Key, e: Entry)
    requires Bound(c, |values|)
  {
    match c
    case Compare(column, p) => Test(column, values[p - 1], k, e)
    case Beyond(order, t, id, source) =>
      values[t - 1].Time? && values[id - 1].Id? && values[source - 1].Rank? &&
      Before(order, Key(values[t - 1].t, values[id - 1].id, values[source - 1].r), k)
  }

  /** The WHERE clause: all conditions hold. */
  ghost predicate Holds(conditions: seq<Condition>, values: seq<Value>, k: Key, e: Entry) {
    forall i | 0 <= i < |conditions| :: Bound(conditions[i], |values|) && Eval(conditions[i], values, k, e)
  }

  ghost predicate AllBound(conditions: seq<Condition>, n: nat) { forall i | 0 <= i < |conditions| :: Bound(conditions[i], n) }

  /** New parameters do not disturb the conditions already there. */
  lemma HoldsStable(conditions: seq<Condition>, values: seq<Value>, more: seq<Value>, c: Condition, k: Key, e: Entry)
    requires AllBound(conditions, |values|) && Bound(c, |values + more|)
    ensures Holds(conditions + [c], values + more, k, e) <==> Holds(conditions, values, k, e) && Eval(c, values + more, k, e)
  {
    var cs, vs := conditions + [c], values + more;
    assert cs[|conditions|] == c;
    forall i | 0 <= i < |conditions| ensures Bound(conditions[i], |vs|) && (Eval(conditions[i], vs, k, e) <==> Eval(conditions[i], values, k, e)) {
      assert Bound(conditions[i], |values|);
    }
    if Holds(cs, vs, k, e) {
      forall i | 0 <= i < |conditions| ensures Eval(conditions[i], values, k, e) { assert cs[i] == conditions[i]; }
    }
  }

  /** The two arrays the handler pushes into while it assembles the query text. */
  class QueryBuilder {
    var values: seq<Value>
    var conditions: seq<Condition>

    ghost predicate Valid()
      reads this
    {
      AllBound(conditions, |values|)
    }

    constructor (snapshot: int)
      ensures Valid()
      ensures forall k, e :: Holds(conditions, values, k, e) <==> k.time <= snapshot
    {
      values := [UserId, Time(snapshot)];
      conditions := [Compare(Snapshot, 2)];
      new;
      assert conditions[0] == Compare(Snapshot, 2) && values[1] == Time(snapshot);
      forall k, e ensures Holds(conditions, values, k, e) <==> k.time <= snapshot {
        assert Holds(conditions, values, k, e) <==> Eval(conditions[0], values, k, e);
      }
    }

    method Where(column: Column, v: Value)
      requires Valid()
      modifies this
      ensures Valid()
      ensures forall k, e :: Holds(conditions, values, k, e) <==> Holds(old(conditions), old(values), k, e) && Test(column, v, k, e)
    {
      hide Holds, Test;
      values := values + [v];
      var c := Compare(column, |values|);
      conditions := conditions + [c];
      forall k, e ensures Holds(conditions, values, k, e) <==> Holds(old(conditions), old(values), k, e) && Test(column, v, k, e) {
        HoldsStable(old(conditions), old(values), [v], c, k, e);
      }
    }

    method After(order: Order, cursor: Key)
      requires Valid()
      modifies this
      ensures Valid()
      ensures forall k, e :: Holds(conditions, values, k, e) <==> Holds(old(conditions), old(values), k, e) && Before(order, cursor, k)
    {
      hide Holds, Before;
      var n := |values|;
      var more := [Time(cursor.time), Id(cursor.id), Rank(cursor.source)];
      values := values + more;
      var c := Beyond(order, n + 1, n + 2, n + 3);
      conditions := conditions + [c];
      forall k, e ensures Holds(conditions, values, k, e) <==> Holds(old(conditions), old(values), k, e) && Before(order, cursor, k) {
        HoldsStable(old(conditions), old(values), more, c, k, e);
      }
    }
  }

  /** Assemble the WHERE clause: it selects exactly the wanted rows. */
  method BuildQuery(f: Filters, snapshot: int, cursor: Option<Key>) returns (values: seq<Value>, conditions: seq<Condition>)
    ensures AllBound(conditions, |values|)
    ensures forall k, e :: Holds(conditions, values, k, e) <==> Wanted(f, snapshot, cursor, k, e)
  {
    hide Holds, Before, AllBound;
    var q := new QueryBuilder(snapshot);
    if f.source.Some? { q.Where(SourceColumn, Rank(f.source.value)); }
    if f.eventType.Some? { q.Where(EventColumn, Text(f.eventType.value)); }
    if f.correlationId.Some? { q.Where(CorrelationColumn, Text(f.correlationId.value)); }
    if f.since.Some? { q.Where(Since, Time(f.since.value)); }
    if f.until.Some? { q.Where(Until, Time(f.until.value)); }
    if cursor.Some? { q.After(f.order, cursor.value); }
    values, conditions := q.values, q.conditions;
  }

  // ---------- the walk over the history ----------

  ghost function Selected(table: Table, f: Filters, snapshot: int, cursor: Option<Key>): set<Key> {
    set k | k in table && Wanted(f, snapshot, cursor, k, table[k])
  }

  /** All matching rows at or before the snapshot. */
  ghost function Listed(table: Table, f: Filters, snapshot: int): set<Key> {
    set k | k in table && Matches(f, snapshot, k, table[k])
  }

  ghost function HistorySelector(tables: nat -> Table, f: Filters, snapshot: int): Selector {
    (n: nat, cursor: Option<Key>) => Selected(tables(n), f, snapshot, cursor)
  }

  /** Between requests rows may be added, but only with times after the snapshot. */
  ghost predicate OnlyLaterRows(tables: nat -> Table, snapshot: int) {
    forall n: nat, k: Key :: k.time <= snapshot ==>
      (k in tables(n) <==> k in tables(0)) && (k in tables(0) ==> tables(n)[k] == tables(0)[k])
  }

  lemma SameSelection(a: Table, b: Table, f: Filters, snapshot: int, c: Key)
    requires forall k: Key :: k.time <= snapshot ==> (k in a <==> k in b) && (k in b ==> a[k] == b[k])
    ensures Selected(a, f, snapshot, Some(c)) == KeysetPaging.After(Selected(b, f, snapshot, None), f.order, c)
  {
    hide Before;
    forall k ensures k in Selected(a, f, snapshot, Some(c)) <==> k in KeysetPaging.After(Selected(b, f, snapshot, None), f.order, c) {
      if k.time <= snapshot { assert k in a <==> k in b; }
    }
  }

  /** Every later request sees the rows of the first one that lie beyond its cursor. */
  lemma HistoryIsSteady(tables: nat -> Table, f: Filters, snapshot: int)
    requires OnlyLaterRows(tables, snapshot)
    ensures Steady(HistorySelector(tables, f, snapshot), Listed(tables(0), f, snapshot), f.order)
  {
    var select := HistorySelector(tables, f, snapshot);
    var all := Listed(tables(0), f, snapshot);
    assert select(0, None) == all == Selected(tables(0), f, snapshot, None);
    forall m: nat, c: Key | c in all ensures select(m, Some(c)) == KeysetPaging.After(all, f.order, c) {
      SameSelection(tables(m), tables(0), f, snapshot, c);
    }
  }

  /** Following cursors through the history yields exactly the matching rows at or before the
      snapshot, sorted, each once, in ceil(n / limit) pages (one when empty), whatever rows later than
      the snapshot (the walk's own audit rows among them) are added meanwhile. */
  lemma HistoryWalk(tables: nat -> Table, f: Filters, snapshot: int, limit: nat, n: nat)
    requires OnlyLaterRows(tables, snapshot) && limit > 0
    ensures var w := Walked(HistorySelector(tables, f, snapshot), f.order, limit, n);
            var all := Listed(tables(0), f, snapshot);
            && (w.done <==> n >= PageCount(|all|, limit))
            && w.pages == (if n < PageCount(|all|, limit) then n else PageCount(|all|, limit))
            && Sorted(Ordered(all, f.order), f.order) && Elements(Ordered(all, f.order)) == all
            && (w.done ==> w.items == Ordered(all, f.order))
            && w.items == Take(Ordered(all, f.order), Shown(n, limit))
  {
    var all := Listed(tables(0), f, snapshot);
    HistoryIsSteady(tables, f, snapshot);
    OrderedIsSorted(all, f.order);
    WalkIsListing(HistorySelector(tables, f, snapshot), all, f.order, limit, n);
  }
}
