/** The administrator's user list: filtered, newest first, paged by (created, id) under a cursor text
    that names the last row shown. There is no snapshot. */
module UserListing {
  import opened Options
  import opened KeysetPaging
  import opened Base64Url
  import HistoryCursor

  /** The columns the filters see; name and handle in lower case. Keys are (created, id), source 0. */
  datatype User = User(name: string, handle: Option<string>, status: string)

  type Table = map<Key, User>

  datatype Filters = Filters(query: string, status: Option<string>, createdAfter: Option<int>, createdBefore: Option<int>)

  /** How the database writes times and identifiers, and reads them back; `dated` is the verdict of the
      date parser on a presented time. */
  datatype Texts = Texts(time: int -> string, id: nat -> string, readTime: string -> int, readId: string -> nat, dated: string -> bool)

  predicate Occurs(part: string, text: string) { exists i | 0 <= i <= |text| :: part <= text[i..] }

  /** An empty query asks for nothing. */
  predicate Matches(f: Filters, x: Texts, k: Key, u: User) {
    && (f.query != "" ==> x.id(k.id) == f.query || Occurs(f.query, u.name) || (u.handle.Some? && Occurs(f.query, u.handle.value)))
    && (f.status.Some? ==> u.status == f.status.value)
    && (f.createdAfter.Some? ==> f.createdAfter.value <= k.time)
    && (f.createdBefore.Some? ==> k.time < f.createdBefore.value)
  }

  ghost function Listed(table: Table, f: Filters, x: Texts): set<Key> { set k | k in table && Matches(f, x, k, table[k]) }

  ghost function Selected(table: Table, f: Filters, x: Texts, after: Option<Key>): set<Key> {
    set k | k in table && Matches(f, x, k, table[k]) && (after.Some? ==> Before(Newest, after.value, k))
  }

  // ---------- the cursor text ----------

  const MEMBERS: seq<string> := ["{\"timestamp\":", ",\"id\":"]

  function CursorText(timestamp: string, id: string): string { HistoryCursor.Object(MEMBERS, [Some(timestamp), Some(id)]) }

  /** `encodeCursor`; outside printable text it is not modelled. */
  function Issue(x: Texts, k: Key): Option<string> {
    var t := CursorText(x.time(k.time), x.id(k.id));
    if HistoryCursor.Printable(t) then Some(Encode(HistoryCursor.ToBytes(t))) else None
  }

  datatype Presented = NoCursor | Position(k: Key) | InvalidCursor

  /** `decodeCursor`: an empty text is no cursor. */
  function Present(x: Texts, text: string): Presented {
    if text == "" then NoCursor
    else
      match Decode(text)
      case None => InvalidCursor
      case Some(b) =>
        match HistoryCursor.ReadObject(HistoryCursor.ToText(b), MEMBERS)
        case None => InvalidCursor
        case Some(v) =>
          if |v| == 2 && v[0].Some? && x.dated(v[0].value) && v[1].Some? && HistoryCursor.Uuid(v[1].value)
          then Position(Key(x.readTime(v[0].value), x.readId(v[1].value), 0)) else InvalidCursor
  }

  /** The texts of a row pass the cursor's checks and name that row. */
  ghost predicate RowReads(x: Texts, k: Key) {
    && HistoryCursor.Stamp(x.time(k.time)) && x.dated(x.time(k.time)) && x.readTime(x.time(k.time)) == k.time
    && HistoryCursor.Uuid(x.id(k.id)) && x.readId(x.id(k.id)) == k.id && k.source == 0
  }

  lemma CursorPrintable(timestamp: string, id: string)
    requires HistoryCursor.Stamp(timestamp) && HistoryCursor.Uuid(id)
    ensures HistoryCursor.Printable(CursorText(timestamp, id))
  {
    HistoryCursor.StampIsCode(timestamp);
    HistoryCursor.UuidIsCode(id);
    assert HistoryCursor.Printable(MEMBERS[0]) && HistoryCursor.Printable(MEMBERS[1]);
    hide HistoryCursor.Stamp, HistoryCursor.Uuid, HistoryCursor.Code;
    HistoryCursor.CodeMember(MEMBERS[0], Some(timestamp), 27);
    HistoryCursor.CodeMember(MEMBERS[1], Some(id), 36);
    var v := [Some(timestamp), Some(id)];
    hide HistoryCursor.Member;
    assert MEMBERS[1..][1..] == [] && v[1..][1..] == [];
    assert HistoryCursor.Object(MEMBERS[1..], v[1..]) == HistoryCursor.Member(MEMBERS[1], v[1]) + "}";
  }

  lemma CursorNotEmpty(timestamp: string, id: string)
    ensures |CursorText(timestamp, id)| > 0
  {
    assert |MEMBERS[0]| > 0;
  }

  /** An issued cursor comes back as the row it was issued for. */
  lemma CursorReturns(x: Texts, k: Key)
    requires RowReads(x, k)
    ensures Issue(x, k).Some? && Present(x, Issue(x, k).value) == Position(k)
  {
    var timestamp, id := x.time(k.time), x.id(k.id);
    var t := CursorText(timestamp, id);
    CursorPrintable(timestamp, id);
    CursorNotEmpty(timestamp, id);
    HistoryCursor.ReadObjectOf(MEMBERS, [Some(timestamp), Some(id)]);
    hide HistoryCursor.Object, HistoryCursor.ReadObject, HistoryCursor.Stamp, HistoryCursor.Uuid, Encode, Decode;
    var b := HistoryCursor.ToBytes(t);
    HistoryCursor.TextOfBytes(t);
    DecodeEncode(b);
    EncodedLength(b);
  }

  // ---------- following the cursors ----------

  datatype Visit = Visit(items: seq<Key>, cursor: string, pages: nat, done: bool, refused: bool)

  /** One request; the answer's items and next cursor, none at the end. */
  ghost function Request(v: Visit, table: Table, x: Texts, f: Filters, limit: nat): Visit {
    var at := Present(x, v.cursor);
    if at.InvalidCursor? then v.(refused := true)
    else
      var page := PageOf(Selected(table, f, x, if at.Position? then Some(at.k) else None), Newest, limit);
      match page.next
      case None => Visit(v.items + page.items, "", v.pages + 1, true, false)
      case Some(k) =>
        if Issue(x, k).None? then v.(refused := true)
        else Visit(v.items + page.items, Issue(x, k).value, v.pages + 1, false, false)
  }

  /** A client that has made `n` requests, each with the cursor text of the previous answer. */
  ghost function Visited(tables: nat -> Table, x: Texts, f: Filters, limit: nat, n: nat): Visit {
    if n == 0 then Visit([], "", 0, false, false)
    else
      var v := Visited(tables, x, f, limit, n - 1);
      if v.done || v.refused then v else Request(v, tables(n - 1), x, f, limit)
  }

  ghost function UserSelector(tables: nat -> Table, f: Filters, x: Texts): Selector {
    (n: nat, after: Option<Key>) => Selected(tables(n), f, x, after)
  }

  /** Nothing listed changes, and new users are newer than all users of the first request. */
  ghost predicate OnlyNewerUsers(tables: nat -> Table, horizon: int) {
    && (forall k | k in tables(0) :: k.time <= horizon && k.source == 0)
    && (forall n: nat, k: Key :: k.time <= horizon ==>
          (k in tables(n) <==> k in tables(0)) && (k in tables(0) ==> tables(n)[k] == tables(0)[k]))
  }

  lemma UsersAreSteady(tables: nat -> Table, f: Filters, x: Texts, horizon: int)
    requires OnlyNewerUsers(tables, horizon)
    ensures Steady(UserSelector(tables, f, x), Listed(tables(0), f, x), Newest)
  {
    var select := UserSelector(tables, f, x);
    var all := Listed(tables(0), f, x);
    assert select(0, None) == all;
    hide Matches;
    forall m: nat, c: Key | c in all ensures select(m, Some(c)) == After(all, Newest, c) {
      forall k ensures k in select(m, Some(c)) <==> k in After(all, Newest, c) {
        if Before(Newest, c, k) { assert k.time <= horizon; assert k in tables(m) <==> k in tables(0); }
      }
    }
  }

  ghost predicate Follows(v: Visit, w: Walk, x: Texts) {
    && v.items == w.items && v.pages == w.pages && v.done == w.done && !v.refused
    && (!v.done ==> if w.cursor.None? then v.cursor == "" else Issue(x, w.cursor.value) == Some(v.cursor))
  }

  lemma RequestFollows(v: Visit, w: Walk, table: Table, x: Texts, f: Filters, limit: nat)
    requires Follows(v, w, x) && !v.done && (w.cursor.Some? ==> RowReads(x, w.cursor.value))
    requires var next := NextPage(w, Selected(table, f, x, w.cursor), Newest, limit).cursor; next.Some? ==> RowReads(x, next.value)
    ensures Follows(Request(v, table, x, f, limit), NextPage(w, Selected(table, f, x, w.cursor), Newest, limit), x)
  {
    if w.cursor.Some? { CursorReturns(x, w.cursor.value); }
    var next := NextPage(w, Selected(table, f, x, w.cursor), Newest, limit).cursor;
    if next.Some? { CursorReturns(x, next.value); }
    assert Present(x, "") == NoCursor;
    hide Issue, Present, PageOf, Selected, RowReads, Ordered, Take;
  }

  /** While the walk goes on its cursor is a listed row. */
  lemma CursorIsListed(select: Selector, all: set<Key>, limit: nat, n: nat)
    requires Steady(select, all, Newest) && limit > 0
    ensures var w := Walked(select, Newest, limit, n); !w.done && w.cursor.Some? ==> w.cursor.value in all
    ensures var w := Walked(select, Newest, limit, n); w.done ==> w.cursor.None?
  {
    WalkStep(select, all, Newest, limit, n);
    OrderedIsSorted(all, Newest);
    DoneHasNoCursor(select, Newest, limit, n);
    hide Steady, Walked, Ordered;
    var w, L := Walked(select, Newest, limit, n), Ordered(all, Newest);
    if !w.done && n > 0 { assert L[Shown(n, limit) - 1] in Elements(L); }
  }

  lemma {:induction false} VisitFollows(tables: nat -> Table, x: Texts, f: Filters, horizon: int, limit: nat, n: nat)
    requires OnlyNewerUsers(tables, horizon) && limit > 0
    requires forall k | k in Listed(tables(0), f, x) :: RowReads(x, k)
    ensures Follows(Visited(tables, x, f, limit, n), Walked(UserSelector(tables, f, x), Newest, limit, n), x)
  {
    hide RowReads, Request, NextPage, Listed, OnlyNewerUsers, Steady, Matches, Issue, Ordered;
    if n > 0 {
      var select := UserSelector(tables, f, x);
      VisitFollows(tables, x, f, horizon, limit, n - 1);
      UsersAreSteady(tables, f, x, horizon);
      var v, w := Visited(tables, x, f, limit, n - 1), Walked(select, Newest, limit, n - 1);
      CursorIsListed(select, Listed(tables(0), f, x), limit, n - 1);
      CursorIsListed(select, Listed(tables(0), f, x), limit, n);
      assert select(n - 1, w.cursor) == Selected(tables(n - 1), f, x, w.cursor);
      assert v.done == w.done && !v.refused;
      hide Follows, Selected, UserSelector;
      if !v.done { RequestFollows(v, w, tables(n - 1), x, f, limit); }
    }
  }

  /** The user list, followed through its cursor texts to the end, is the filtered list at the first
      request, newest first, each user once, in ceil(n / limit) pages (one when there are none), and no
      issued cursor is refused. */
  lemma UserWalk(tables: nat -> Table, x: Texts, f: Filters, horizon: int, limit: nat, n: nat)
    requires OnlyNewerUsers(tables, horizon) && limit > 0
    requires forall k | k in Listed(tables(0), f, x) :: RowReads(x, k)
    ensures var v := Visited(tables, x, f, limit, n);
            var all := Listed(tables(0), f, x);
            && !v.refused
            && (v.done <==> n >= PageCount(|all|, limit))
            && v.pages == (if n < PageCount(|all|, limit) then n else PageCount(|all|, limit))
            && Sorted(Ordered(all, Newest), Newest) && Elements(Ordered(all, Newest)) == all
            && v.items == Take(Ordered(all, Newest), Shown(n, limit))
            && (v.done ==> v.items == Ordered(all, Newest))
  {
    var all := Listed(tables(0), f, x);
    VisitFollows(tables, x, f, horizon, limit, n);
    UsersAreSteady(tables, f, x, horizon);
    OrderedIsSorted(all, Newest);
    hide Visited, Walked, Ordered, Steady, PageCount, Shown, Listed, OnlyNewerUsers, RowReads;
    WalkIsListing(UserSelector(tables, f, x), all, Newest, limit, n);
  }
}
