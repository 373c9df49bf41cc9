/** The history endpoint from end to end: the handler reads the cursor text of a request, takes the
    snapshot and the last row's position from it, and issues the next cursor text. */
module HistoryPages {
  import opened Options
  import opened KeysetPaging
  import opened HistoryCursor
  import HistoryListing

  /** How the database writes times and identifiers as text, and reads them back. */
  datatype Texts = Texts(time: int -> string, id: nat -> string, readTime: string -> int, readId: string -> nat)

  function SourceName(rank: nat): string { if rank == 0 then "account" else if rank == 1 then "activity" else "audit" }

  function RankOf(name: string): nat { if name == "account" then 0 else if name == "activity" then 1 else 2 }

  ghost predicate TimeReads(x: Texts, t: int) { Stamp(x.time(t)) && x.readTime(x.time(t)) == t }

  /** The texts of a row pass the cursor's checks and name that row. */
  ghost predicate RowReads(x: Texts, k: Key) {
    TimeReads(x, k.time) && Uuid(x.id(k.id)) && x.readId(x.id(k.id)) == k.id && k.source <= 2
  }

  function FiltersOf(s: Scope, x: Texts): HistoryListing.Filters {
    HistoryListing.Filters(
      if s.source.Some? then Some(RankOf(s.source.value)) else None, s.eventType, s.correlationId,
      if s.since.Some? then Some(x.readTime(s.since.value)) else None,
      if s.until.Some? then Some(x.readTime(s.until.value)) else None,
      if s.order == "oldest" then Oldest else Newest)
  }

  function CursorAt(s: Scope, x: Texts, snapshotAt: string, k: Key): Cursor {
    Cursor(ScopeText(s), snapshotAt, x.time(k.time), x.id(k.id), SourceName(k.source))
  }

  function KeyAt(x: Texts, c: Cursor): Key { Key(x.readTime(c.createdAt), x.readId(c.id), RankOf(c.source)) }

  datatype Answer = Refused | Answered(items: seq<Key>, next: Option<string>)

  /** One page and the text of the next cursor. A text outside the encoder's range fails the request. */
  ghost function Reply(table: HistoryListing.Table, x: Texts, s: Scope, snapshotAt: string, after: Option<Key>, limit: nat): Answer {
    var f := FiltersOf(s, x);
    var page := PageOf(HistoryListing.Selected(table, f, x.readTime(snapshotAt), after), f.order, limit);
    match page.next
    case None => Answered(page.items, None)
    case Some(k) =>
      var c := CursorAt(s, x, snapshotAt, k);
      if Printable(CursorText(c)) then Answered(page.items, Some(Issue(c))) else Refused
  }

  /** One request. Without a cursor the snapshot is the database's present time. */
  ghost function Handle(table: HistoryListing.Table, x: Texts, s: Scope, now: int, limit: nat, cursor: Option<string>): Answer {
    match cursor
    case None => Reply(table, x, s, x.time(now), None, limit)
    case Some(text) =>
      match Accept(text, ScopeText(s))
      case None => Refused
      case Some(c) => Reply(table, x, s, c.snapshotAt, Some(KeyAt(x, c)), limit)
  }

  datatype Visit = Visit(items: seq<Key>, cursor: Option<string>, pages: nat, done: bool, refused: bool)

  /** A client that has made `n` requests, each with the cursor text of the previous answer. */
  ghost function Visited(tables: nat -> HistoryListing.Table, x: Texts, s: Scope, clock: nat -> int, limit: nat, n: nat): Visit {
    if n == 0 then Visit([], None, 0, false, false)
    else
      var v := Visited(tables, x, s, clock, limit, n - 1);
      if v.done || v.refused then v
      else
        match Handle(tables(n - 1), x, s, clock(n - 1), limit, v.cursor)
        case Refused => v.(refused := true)
        case Answered(items, next) => Visit(v.items + items, next, v.pages + 1, next.None?, false)
  }

  /** An issued cursor comes back as the snapshot and row it was issued for. */
  lemma CursorReturns(x: Texts, s: Scope, snapshot: int, k: Key)
    requires ScopeOk(s) && TimeReads(x, snapshot) && RowReads(x, k)
    ensures var c := CursorAt(s, x, x.time(snapshot), k);
            && Printable(CursorText(c)) && Accept(Issue(c), ScopeText(s)) == Some(c)
            && c.snapshotAt == x.time(snapshot) && KeyAt(x, c) == k
  {
    hide ScopeText, ScopeOk, Stamp, Uuid, CursorText, Accept, Issue;
    IssuedCursorAccepted(CursorAt(s, x, x.time(snapshot), k), s);
  }

  ghost predicate Follows(v: Visit, w: Walk, x: Texts, s: Scope, snapshot: int) {
    && v.items == w.items && v.pages == w.pages && v.done == w.done && !v.refused
    && (!v.done ==> (v.cursor.None? <==> w.cursor.None?))
    && (!v.done && w.cursor.Some? ==>
          var c := CursorAt(s, x, x.time(snapshot), w.cursor.value);
          Printable(CursorText(c)) && v.cursor == Some(Issue(c)))
  }

  /** One request by text does what one request by key does. */
  lemma HandleFollows(table: HistoryListing.Table, x: Texts, s: Scope, snapshot: int, now: int, limit: nat, v: Visit, w: Walk)
    requires ScopeOk(s) && TimeReads(x, snapshot) && Follows(v, w, x, s, snapshot) && !v.done
    requires w.cursor.Some? ==> RowReads(x, w.cursor.value)
    requires w.cursor.None? ==> now == snapshot
    ensures Handle(table, x, s, now, limit, v.cursor) == Reply(table, x, s, x.time(snapshot), w.cursor, limit)
  {
    hide ScopeText, ScopeOk, Stamp, Uuid, CursorText, Accept, Issue, Reply;
    if w.cursor.Some? { CursorReturns(x, s, snapshot, w.cursor.value); }
  }

  lemma ReplyFollows(table: HistoryListing.Table, x: Texts, s: Scope, snapshot: int, limit: nat, w: Walk)
    requires ScopeOk(s) && TimeReads(x, snapshot)
    requires var f := FiltersOf(s, x);
             var next := NextPage(w, HistoryListing.Selected(table, f, snapshot, w.cursor), f.order, limit).cursor;
             next.Some? ==> RowReads(x, next.value)
    ensures var f := FiltersOf(s, x);
            var w' := NextPage(w, HistoryListing.Selected(table, f, snapshot, w.cursor), f.order, limit);
            var a := Reply(table, x, s, x.time(snapshot), w.cursor, limit);
            a.Answered? && Follows(Visit(w.items + a.items, a.next, w.pages + 1, a.next.None?, false), w', x, s, snapshot)
  {
    hide ScopeText, ScopeOk, Stamp, Uuid, CursorText, Accept, Issue, FiltersOf, PageOf;
    var f := FiltersOf(s, x);
    var next := PageOf(HistoryListing.Selected(table, f, snapshot, w.cursor), f.order, limit).next;
    if next.Some? { CursorReturns(x, s, snapshot, next.value); }
  }

  lemma StepFollows(table: HistoryListing.Table, x: Texts, s: Scope, snapshot: int, now: int, limit: nat, v: Visit, w: Walk)
    requires ScopeOk(s) && TimeReads(x, snapshot) && Follows(v, w, x, s, snapshot) && !v.done
    requires w.cursor.Some? ==> RowReads(x, w.cursor.value)
    requires w.cursor.None? ==> now == snapshot
    requires var f := FiltersOf(s, x);
             var next := NextPage(w, HistoryListing.Selected(table, f, snapshot, w.cursor), f.order, limit).cursor;
             next.Some? ==> RowReads(x, next.value)
    ensures var f := FiltersOf(s, x);
            var a := Handle(table, x, s, now, limit, v.cursor);
            && a.Answered?
            && Follows(Visit(v.items + a.items, a.next, v.pages + 1, a.next.None?, false),
                       NextPage(w, HistoryListing.Selected(table, f, snapshot, w.cursor), f.order, limit), x, s, snapshot)
  {
    HandleFollows(table, x, s, snapshot, now, limit, v, w);
    ReplyFollows(table, x, s, snapshot, limit, w);
    assert v.items == w.items && v.pages == w.pages;
    hide Follows, Handle, Reply, NextPage, FiltersOf, RowReads, TimeReads, ScopeOk;
  }

  /** The visit by texts and the walk by keys stay in step. */
  lemma {:induction false} VisitFollows(tables: nat -> HistoryListing.Table, x: Texts, s: Scope, clock: nat -> int, limit: nat, n: nat)
    requires ScopeOk(s) && TimeReads(x, clock(0)) && limit > 0
    requires forall k | k in HistoryListing.Listed(tables(0), FiltersOf(s, x), clock(0)) :: RowReads(x, k)
    requires HistoryListing.OnlyLaterRows(tables, clock(0))
    ensures var f := FiltersOf(s, x);
            Follows(Visited(tables, x, s, clock, limit, n), Walked(HistoryListing.HistorySelector(tables, f, clock(0)), f.order, limit, n), x, s, clock(0))
  {
    hide ScopeOk, FiltersOf, Handle, NextPage, TimeReads, RowReads, CursorText, HistoryListing.OnlyLaterRows, HistoryListing.Listed;
    if n > 0 {
      var f, snapshot := FiltersOf(s, x), clock(0);
      var select := HistoryListing.HistorySelector(tables, f, snapshot);
      VisitFollows(tables, x, s, clock, limit, n - 1);
      var v, w := Visited(tables, x, s, clock, limit, n - 1), Walked(select, f.order, limit, n - 1);
      CursorIsListed(tables, f, snapshot, limit, n - 1);
      CursorIsListed(tables, f, snapshot, limit, n);
      assert select(n - 1, w.cursor) == HistoryListing.Selected(tables(n - 1), f, snapshot, w.cursor);
      assert v.done == w.done && !v.refused;
      hide Follows, HistoryListing.Selected, HistoryListing.HistorySelector;
      if !v.done { StepFollows(tables(n - 1), x, s, snapshot, clock(n - 1), limit, v, w); }
    }
  }

  /** While the walk goes on, its cursor is a listed row, and only the first request has none. */
  lemma CursorIsListed(tables: nat -> HistoryListing.Table, f: HistoryListing.Filters, snapshot: int, limit: nat, n: nat)
    requires HistoryListing.OnlyLaterRows(tables, snapshot) && limit > 0
    ensures var w := Walked(HistoryListing.HistorySelector(tables, f, snapshot), f.order, limit, n);
            && (w.done ==> w.cursor.None?)
            && (!w.done ==> (w.cursor.None? <==> n == 0))
            && (w.cursor.Some? ==> w.cursor.value in HistoryListing.Listed(tables(0), f, snapshot))
  {
    var all := HistoryListing.Listed(tables(0), f, snapshot);
    var select := HistoryListing.HistorySelector(tables, f, snapshot);
    HistoryListing.HistoryIsSteady(tables, f, snapshot);
    WalkStep(select, all, f.order, limit, n);
    DoneHasNoCursor(select, f.order, limit, n);
    OrderedIsSorted(all, f.order);
    var L := Ordered(all, f.order);
    hide Ordered, Walked, HistoryListing.HistorySelector;
    var w := Walked(select, f.order, limit, n);
    if !w.done && n > 0 { assert L[Shown(n, limit) - 1] in Elements(L); }
  }

  /** Following the issued cursor texts from a first request, the client is never refused and receives
      exactly the rows that matched at the first request's time, sorted, each once, in ceil(n / limit)
      pages (one when there are none), whatever later rows are added meanwhile. */
  lemma HistoryByCursorText(tables: nat -> HistoryListing.Table, x: Texts, s: Scope, clock: nat -> int, limit: nat, n: nat)
    requires ScopeOk(s) && TimeReads(x, clock(0)) && limit > 0
    requires forall k | k in HistoryListing.Listed(tables(0), FiltersOf(s, x), clock(0)) :: RowReads(x, k)
    requires HistoryListing.OnlyLaterRows(tables, clock(0))
    ensures var f := FiltersOf(s, x);
            var all := HistoryListing.Listed(tables(0), f, clock(0));
            var v := Visited(tables, x, s, clock, limit, n);
            && !v.refused
            && (v.done <==> n >= PageCount(|all|, limit))
            && v.pages == (if n < PageCount(|all|, limit) then n else PageCount(|all|, limit))
            && Sorted(Ordered(all, f.order), f.order) && Elements(Ordered(all, f.order)) == all
            && v.items == Take(Ordered(all, f.order), Shown(n, limit))
            && (v.done ==> v.items == Ordered(all, f.order))
  {
    VisitFollows(tables, x, s, clock, limit, n);
    hide ScopeOk, FiltersOf, TimeReads, RowReads, Visited, Walked, Ordered, PageCount, Shown;
    HistoryListing.HistoryWalk(tables, FiltersOf(s, x), clock(0), limit, n);
  }
}
