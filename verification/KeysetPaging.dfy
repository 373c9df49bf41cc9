/** Keyset pagination: each page is the first `limit` rows after a cursor, and the last row becomes the
    next cursor. Rows are named by their sort key (time, id, source), which is unique. */
module KeysetPaging {
  import opened Options

  datatype Order = Newest | Oldest

  datatype Key = Key(time: int, id: nat, source: nat)

  /** Row comparison of (time, id, source). */
  predicate Less(a: Key, b: Key) {
    a.time < b.time || (a.time == b.time && (a.id < b.id || (a.id == b.id && a.source < b.source)))
  }

  /** `a` comes strictly before `b` in the listing. */
  predicate Before(o: Order, a: Key, b: Key) { if o == Oldest then Less(a, b) else Less(b, a) }

  ghost predicate First(keys: set<Key>, o: Order, m: Key) { m in keys && forall k | k in keys && k != m :: Before(o, m, k) }

  lemma FirstExists(keys: set<Key>, o: Order)
    requires keys != {}
    ensures exists m :: First(keys, o, m)
    decreases |keys|
  {
    var x :| x in keys;
    var rest := keys - {x};
    assert keys == rest + {x};
    if rest == {} {
      assert First(keys, o, x);
    } else {
      FirstExists(rest, o);
      var m :| First(rest, o, m);
      if Before(o, m, x) {
        assert First(keys, o, m);
      } else {
        forall k | k in keys && k != x ensures Before(o, x, k) { assert k in rest; }
        assert First(keys, o, x);
      }
    }
  }

  /** ORDER BY: the keys as a list. */
  ghost function Ordered(keys: set<Key>, o: Order): (r: seq<Key>)
    ensures |r| == |keys|
    decreases |keys|
  {
    if keys == {} then []
    else
      FirstExists(keys, o);
      var m :| First(keys, o, m);
      [m] + Ordered(keys - {m}, o)
  }

  ghost predicate Sorted(s: seq<Key>, o: Order) { forall i, j | 0 <= i < j < |s| :: Before(o, s[i], s[j]) }

  ghost function Elements(s: seq<Key>): set<Key> { set k | k in s }

  lemma {:induction false} OrderedIsSorted(keys: set<Key>, o: Order)
    ensures Sorted(Ordered(keys, o), o) && Elements(Ordered(keys, o)) == keys
    decreases |keys|
  {
    if keys != {} {
      var r := Ordered(keys, o);
      var m := r[0];
      FirstExists(keys, o);
      assert First(keys, o, m);
      OrderedIsSorted(keys - {m}, o);
      var rest := Ordered(keys - {m}, o);
      assert r == [m] + rest;
      forall j | 0 <= j < |rest| ensures Before(o, m, rest[j]) { assert rest[j] in Elements(rest); }
      assert forall k :: k in r <==> k == m || k in rest;
      assert Elements(r) == {m} + Elements(rest);
    }
  }

  /** A sorted list is determined by its elements. */
  lemma {:induction false} SortedIsUnique(s: seq<Key>, t: seq<Key>, o: Order)
    requires Sorted(s, o) && Sorted(t, o) && Elements(s) == Elements(t)
    ensures s == t
  {
    assert |t| > 0 ==> t[0] in Elements(s);
    if |s| > 0 {
      assert s[0] in Elements(t);
      var i :| 0 <= i < |t| && t[i] == s[0];
      assert t[0] in Elements(s);
      var j :| 0 <= j < |s| && s[j] == t[0];
      assert s[0] == t[0];
      forall k ensures k in s[1..] <==> k in t[1..] {
        assert k in s <==> k in t by { assert k in Elements(s) <==> k in Elements(t); }
        assert s == [s[0]] + s[1..] && t == [t[0]] + t[1..];
        assert s[0] !in s[1..] && t[0] !in t[1..];
      }
      SortedIsUnique(s[1..], t[1..], o);
    }
  }

  ghost function After(keys: set<Key>, o: Order, c: Key): set<Key> { set k | k in keys && Before(o, c, k) }

  lemma TailIsAfter(L: seq<Key>, o: Order, i: nat, k: Key)
    requires Sorted(L, o) && 0 < i <= |L|
    ensures k in L[i..] <==> k in L && Before(o, L[i - 1], k)
  {
    if k in L {
      var j :| 0 <= j < |L| && L[j] == k;
      if j >= i { assert L[i..][j - i] == k; } else { assert !Before(o, L[i - 1], k); }
      if k in L[i..] {
        var h :| 0 <= h < |L[i..]| && L[i..][h] == k;
        assert Before(o, L[i - 1], L[i + h]);
      }
    }
  }

  /** The rows after the i-th row of a listing are the rest of the listing. */
  lemma RestOfListing(keys: set<Key>, o: Order, i: nat)
    requires 0 < i <= |Ordered(keys, o)|
    ensures var L := Ordered(keys, o);
            Ordered(After(keys, o, L[i - 1]), o) == L[i..]
  {
    var L := Ordered(keys, o);
    var after := After(keys, o, L[i - 1]);
    OrderedIsSorted(keys, o);
    OrderedIsSorted(after, o);
    hide Ordered, Before;
    forall k ensures k in after <==> k in L[i..] {
      TailIsAfter(L, o, i, k);
      assert k in keys <==> k in L by { assert k in keys <==> k in Elements(L); }
    }
    assert Elements(L[i..]) == after;
    SortedIsUnique(Ordered(after, o), L[i..], o);
  }

  // ---------- pages and walks ----------

  function Take(s: seq<Key>, n: nat): seq<Key> { if |s| <= n then s else s[..n] }

  datatype Page = Page(items: seq<Key>, next: Option<Key>)

  /** One request: fetch one row more than the limit to learn whether there is a next page. */
  ghost function PageOf(selected: set<Key>, o: Order, limit: nat): Page {
    var rows := Take(Ordered(selected, o), limit + 1);
    var items := Take(rows, limit);
    Page(items, if |rows| > limit && |items| > 0 then Some(items[|items| - 1]) else None)
  }

  /** Which keys the n-th request selects, given its cursor. */
  type Selector = (nat, Option<Key>) -> set<Key>

  datatype Walk = Walk(items: seq<Key>, cursor: Option<Key>, pages: nat, done: bool)

  ghost function NextPage(w: Walk, selected: set<Key>, o: Order, limit: nat): Walk {
    var page := PageOf(selected, o, limit);
    Walk(w.items + page.items, page.next, w.pages + 1, page.next.None?)
  }

  /** A client that has made `n` requests, each with the cursor the previous page returned. */
  ghost function Walked(select: Selector, o: Order, limit: nat, n: nat): Walk {
    if n == 0 then Walk([], None, 0, false)
    else
      var w := Walked(select, o, limit, n - 1);
      if w.done then w else NextPage(w, select(n - 1, w.cursor), o, limit)
  }

  /** Between requests the data may change, but never among the keys the walk is about. */
  ghost predicate Steady(select: Selector, keys: set<Key>, o: Order) {
    && select(0, None) == keys
    && forall n: nat, c: Key :: c in keys ==> select(n, Some(c)) == After(keys, o, c)
  }

  /** Pages needed: ceil(total / limit), and one when there is nothing. */
  function PageCount(total: nat, limit: nat): nat
    requires limit > 0
  {
    if total == 0 then 1 else (total + limit - 1) / limit
  }

  /** Rows shown by `n` full pages: n * limit. */
  function Shown(n: nat, limit: nat): nat { if n == 0 then 0 else Shown(n - 1, limit) + limit }

  lemma {:induction false} ShownIsProduct(n: nat, limit: nat)
    ensures Shown(n, limit) == n * limit
  {
    if n > 0 {
      ShownIsProduct(n - 1, limit);
      assert n * limit == (n - 1) * limit + limit;
    }
  }

  ghost predicate WalkIs(w: Walk, L: seq<Key>, shown: nat, n: nat) {
    && w.items == Take(L, shown)
    && (w.done <==> n > 0 && |L| <= shown)
    && (!w.done && n == 0 ==> w.cursor == None)
    && (!w.done && n > 0 ==> 0 < shown < |L| && w.cursor == Some(L[shown - 1]))
  }

  lemma PageShape(selected: set<Key>, o: Order, limit: nat)
    requires limit > 0
    ensures var L := Ordered(selected, o);
            PageOf(selected, o, limit) == Page(Take(L, limit), if |L| > limit then Some(L[limit - 1]) else None)
  {
  }

  lemma TakeMore(L: seq<Key>, at: nat, limit: nat)
    requires at <= |L|
    ensures Take(L, at) + Take(L[at..], limit) == Take(L, at + limit)
    ensures |L[at..]| > limit > 0 ==> at + limit < |L| && L[at..][limit - 1] == L[at + limit - 1]
  {
  }

  /** The rows a request selects are the part of the listing not yet shown. */
  lemma SelectedIsRest(select: Selector, keys: set<Key>, o: Order, w: Walk, shown: nat, n: nat)
    requires Steady(select, keys, o) && WalkIs(w, Ordered(keys, o), shown, n) && !w.done && (n == 0 ==> shown == 0)
    ensures shown <= |Ordered(keys, o)| && Ordered(select(n, w.cursor), o) == Ordered(keys, o)[shown..]
  {
    var L := Ordered(keys, o);
    if n > 0 {
      OrderedIsSorted(keys, o);
      assert L[shown - 1] in Elements(L);
      RestOfListing(keys, o, shown);
    }
  }

  lemma NextPageIs(w: Walk, L: seq<Key>, selected: set<Key>, o: Order, limit: nat, shown: nat, n: nat)
    requires WalkIs(w, L, shown, n) && !w.done && limit > 0 && shown <= |L| && Ordered(selected, o) == L[shown..]
    ensures WalkIs(NextPage(w, selected, o, limit), L, shown + limit, n + 1)
  {
    PageShape(selected, o, limit);
    hide Ordered, PageOf;
    TakeMore(L, shown, limit);
  }

  lemma {:induction false} WalkStep(select: Selector, keys: set<Key>, o: Order, limit: nat, n: nat)
    requires Steady(select, keys, o) && limit > 0
    ensures WalkIs(Walked(select, o, limit, n), Ordered(keys, o), Shown(n, limit), n)
  {
    hide Ordered, NextPage, Steady;
    if n > 0 {
      WalkStep(select, keys, o, limit, n - 1);
      var w := Walked(select, o, limit, n - 1);
      if !w.done {
        SelectedIsRest(select, keys, o, w, Shown(n - 1, limit), n - 1);
        NextPageIs(w, Ordered(keys, o), select(n - 1, w.cursor), o, limit, Shown(n - 1, limit), n - 1);
      }
    }
  }

  /** `needed` pages of `limit` rows hold `total` rows, and one page fewer does not. */
  lemma PageCountIsCeiling(total: nat, limit: nat)
    requires limit > 0
    ensures var needed := PageCount(total, limit);
            needed > 0 && total <= Shown(needed, limit) && (needed > 1 ==> Shown(needed - 1, limit) < total)
  {
    var q := PageCount(total, limit);
    if total > 0 {
      assert q * limit <= total + limit - 1 < q * limit + limit;
      assert q > 0;
      assert (q - 1) * limit == q * limit - limit;
      ShownIsProduct(q - 1, limit);
    }
    ShownIsProduct(q, limit);
  }

  lemma {:induction false} ShownGrows(a: nat, b: nat, limit: nat)
    requires a <= b
    ensures Shown(a, limit) <= Shown(b, limit)
  {
    if a < b { ShownGrows(a, b - 1, limit); }
  }

  lemma DoneWhen(select: Selector, keys: set<Key>, o: Order, limit: nat, n: nat)
    requires Steady(select, keys, o) && limit > 0
    ensures Walked(select, o, limit, n).done <==> n >= PageCount(|keys|, limit)
  {
    var needed := PageCount(|keys|, limit);
    PageCountIsCeiling(|keys|, limit);
    WalkStep(select, keys, o, limit, n);
    hide Walked, Steady, PageCount;
    if n >= needed { ShownGrows(needed, n, limit); } else { ShownGrows(n, needed - 1, limit); }
  }

  lemma OneMorePage(w: Walk, selected: set<Key>, o: Order, limit: nat)
    ensures NextPage(w, selected, o, limit).pages == w.pages + 1
  {
  }

  /** A walk that is done from its `needed`-th request on makes that many requests. */
  lemma {:induction false} PagesUsed(select: Selector, o: Order, limit: nat, needed: nat, n: nat)
    requires needed > 0 && forall m: nat :: Walked(select, o, limit, m).done <==> m >= needed
    ensures Walked(select, o, limit, n).pages == if n < needed then n else needed
  {
    hide NextPage;
    if n > 0 {
      var w := Walked(select, o, limit, n - 1);
      PagesUsed(select, o, limit, needed, n - 1);
      if !w.done { OneMorePage(w, select(n - 1, w.cursor), o, limit); }
    }
  }

  lemma {:induction false} DoneHasNoCursor(select: Selector, o: Order, limit: nat, n: nat)
    ensures var w := Walked(select, o, limit, n); w.done ==> w.cursor.None?
  {
    if n > 0 { DoneHasNoCursor(select, o, limit, n - 1); }
  }

  /** Following cursors to the end yields the whole listing, each row once and in order, in exactly
      ceil(total / limit) pages (one when it is empty), and every shorter walk yields a prefix of it. */
  lemma WalkIsListing(select: Selector, keys: set<Key>, o: Order, limit: nat, n: nat)
    requires Steady(select, keys, o) && limit > 0
    ensures var w := Walked(select, o, limit, n);
            var needed := PageCount(|keys|, limit);
            && (w.done <==> n >= needed)
            && w.pages == (if n < needed then n else needed)
            && (w.done ==> w.items == Ordered(keys, o))
            && w.items == Take(Ordered(keys, o), Shown(n, limit))
  {
    WalkStep(select, keys, o, limit, n);
    PageCountIsCeiling(|keys|, limit);
    hide Walked, Steady, PageCount, Shown;
    forall m: nat ensures Walked(select, o, limit, m).done <==> m >= PageCount(|keys|, limit) {
      DoneWhen(select, keys, o, limit, m);
    }
    PagesUsed(select, o, limit, PageCount(|keys|, limit), n);
  }
}
