/** Stable round-robin selection across groups. Group and family names are integers in sort order. */
module RoundRobin {
  import opened Options

  datatype Record = Record(group: int, family: int, sample: int)

  // ---------- sorting ----------

  predicate Precedes(a: Record, b: Record) { a.group < b.group || (a.group == b.group && a.family <= b.family) }

  function Insert(s: seq<Record>, x: Record): (r: seq<Record>)
    ensures multiset(r) == multiset(s) + multiset{x}
  {
    if |s| == 0 || Precedes(s[|s| - 1], x) then s + [x]
    else
      assert s == s[..|s| - 1] + [s[|s| - 1]];
      Insert(s[..|s| - 1], x) + [s[|s| - 1]]
  }

  /** `sorted` by group, then family; equal keys keep their order. */
  function Sorted(s: seq<Record>): (r: seq<Record>)
    ensures multiset(r) == multiset(s) && |r| == |s|
  {
    if |s| == 0 then []
    else
      assert s == s[..|s| - 1] + [s[|s| - 1]];
      var r := Insert(Sorted(s[..|s| - 1]), s[|s| - 1]);
      SameSize(r, s);
      r
  }

  lemma SameSize(a: seq<Record>, b: seq<Record>)
    requires multiset(a) == multiset(b)
    ensures |a| == |b|
  {
    assert |multiset(a)| == |a| && |multiset(b)| == |b|;
  }

  ghost predicate InOrder(s: seq<Record>) { forall i, j | 0 <= i < j < |s| :: Precedes(s[i], s[j]) }

  lemma {:induction false} InsertInOrder(s: seq<Record>, x: Record)
    requires InOrder(s)
    ensures InOrder(Insert(s, x))
  {
    if |s| > 0 && !Precedes(s[|s| - 1], x) {
      var init, last := s[..|s| - 1], s[|s| - 1];
      InsertInOrder(init, x);
      var r := Insert(init, x);
      assert s == init + [last];
      hide Insert;
      forall i | 0 <= i < |r| ensures Precedes(r[i], last) {
        assert r[i] in multiset(r);
        assert r[i] == x || r[i] in init;
      }
    }
  }

  lemma {:induction false} SortedInOrder(s: seq<Record>)
    ensures InOrder(Sorted(s))
  {
    if |s| > 0 {
      SortedInOrder(s[..|s| - 1]);
      InsertInOrder(Sorted(s[..|s| - 1]), s[|s| - 1]);
    }
  }

  /** The records with one and the same key, in order. */
  function Alike(s: seq<Record>, group: int, family: int): seq<Record> {
    if |s| == 0 then []
    else Alike(s[..|s| - 1], group, family) + if s[|s| - 1].group == group && s[|s| - 1].family == family then [s[|s| - 1]] else []
  }

  lemma AlikeAppend(s: seq<Record>, x: Record, group: int, family: int)
    ensures Alike(s + [x], group, family) == Alike(s, group, family) + if x.group == group && x.family == family then [x] else []
  {
    assert (s + [x])[..|s|] == s;
  }

  lemma {:induction false} InsertStable(s: seq<Record>, x: Record, group: int, family: int)
    ensures Alike(Insert(s, x), group, family) == Alike(s + [x], group, family)
  {
    AlikeAppend(s, x, group, family);
    if |s| > 0 && !Precedes(s[|s| - 1], x) {
      var init, last := s[..|s| - 1], s[|s| - 1];
      InsertStable(init, x, group, family);
      AlikeAppend(init, x, group, family);
      AlikeAppend(Insert(init, x), last, group, family);
      hide Insert;
    }
  }

  /** The sort is stable: records with equal keys keep their order. */
  lemma {:induction false} SortedIsStable(s: seq<Record>, group: int, family: int)
    ensures Alike(Sorted(s), group, family) == Alike(s, group, family)
  {
    if |s| > 0 {
      var init, last := s[..|s| - 1], s[|s| - 1];
      assert s == init + [last];
      SortedIsStable(init, group, family);
      InsertStable(Sorted(init), last, group, family);
      AlikeAppend(Sorted(init), last, group, family);
      hide Insert, Precedes;
    }
  }

  // ---------- grouping ----------

  /** The records of one group, in order. */
  function Members(s: seq<Record>, k: int): seq<Record> {
    if |s| == 0 then []
    else Members(s[..|s| - 1], k) + if s[|s| - 1].group == k then [s[|s| - 1]] else []
  }

  lemma MembersAppend(s: seq<Record>, x: Record, k: int)
    ensures Members(s + [x], k) == Members(s, k) + if x.group == k then [x] else []
  {
    assert (s + [x])[..|s|] == s;
  }

  lemma {:induction false} MembersCount(s: seq<Record>, x: Record)
    ensures multiset(Members(s, x.group))[x] == multiset(s)[x]
  {
    if |s| > 0 {
      MembersCount(s[..|s| - 1], x);
      assert s == s[..|s| - 1] + [s[|s| - 1]];
    }
  }

  lemma {:induction false} MembersBelong(s: seq<Record>, k: int)
    ensures forall x | x in Members(s, k) :: x in s && x.group == k
    ensures |Members(s, k)| <= |s| && ((exists x | x in s :: x.group == k) ==> |Members(s, k)| > 0)
  {
    if |s| > 0 { MembersBelong(s[..|s| - 1], k); }
  }

  lemma {:induction false} NoMembers(s: seq<Record>, k: int)
    requires forall x | x in s :: x.group != k
    ensures Members(s, k) == []
  {
    if |s| > 0 { NoMembers(s[..|s| - 1], k); }
  }

  ghost predicate Increasing(keys: seq<int>) { forall i, j | 0 <= i < j < |keys| :: keys[i] < keys[j] }

  lemma IncreasingAppend(keys: seq<int>, k: int)
    requires Increasing(keys) && forall x | x in keys :: x < k
    ensures Increasing(keys + [k])
  {
    assert forall i | 0 <= i < |keys| :: keys[i] in keys;
  }

  lemma IncreasingDistinct(keys: seq<int>, i: nat, j: nat)
    requires Increasing(keys) && i < |keys| && j < |keys|
    ensures keys[i] == keys[j] <==> i == j
  {
  }

  ghost predicate Covers(s: seq<Record>, keys: seq<int>) { forall x | x in s :: x.group in keys }

  /** The dictionary holds exactly the groups that occur, each with its records in order. */
  ghost predicate Grouped(s: seq<Record>, keys: seq<int>, groups: map<int, seq<Record>>) {
    && Increasing(keys) && groups.Keys == (set k | k in keys) && Covers(s, keys)
    && (forall k | k in keys :: groups[k] == Members(s, k))
    && (forall k | k in keys :: Occurs(s, k))
  }

  ghost predicate Occurs(s: seq<Record>, k: int) { exists x | x in s :: x.group == k }

  lemma OccursAppend(s: seq<Record>, x: Record, k: int)
    ensures Occurs(s + [x], k) <==> Occurs(s, k) || k == x.group
  {
    if Occurs(s, k) {
      var y :| y in s && y.group == k;
      assert y in s + [x];
    }
    if k == x.group { assert x in s + [x]; }
  }

  lemma GroupedStep(s: seq<Record>, x: Record, keys: seq<int>, groups: map<int, seq<Record>>)
    requires Grouped(s, keys, groups)
    requires x.group in keys
    ensures Grouped(s + [x], keys, groups[x.group := groups[x.group] + [x]])
  {
    forall k | k in keys ensures groups[x.group := groups[x.group] + [x]][k] == Members(s + [x], k) { MembersAppend(s, x, k); }
    forall k | k in keys ensures Occurs(s + [x], k) { OccursAppend(s, x, k); }
  }

  lemma GroupedNew(s: seq<Record>, x: Record, keys: seq<int>, groups: map<int, seq<Record>>)
    requires Grouped(s, keys, groups) && x.group !in keys && forall y | y in s :: Precedes(y, x)
    ensures Grouped(s + [x], keys + [x.group], groups[x.group := [x]])
  {
    var keys' := keys + [x.group];
    hide Members, Increasing;
    NoMembers(s, x.group);
    forall k | k in keys' ensures groups[x.group := [x]][k] == Members(s + [x], k) { MembersAppend(s, x, k); }
    forall k | k in keys ensures k < x.group {
      assert Occurs(s, k);
      var y :| y in s && y.group == k;
    }
    forall k | k in keys' ensures Occurs(s + [x], k) { OccursAppend(s, x, k); }
    IncreasingAppend(keys, x.group);
    hide Occurs;
    assert Covers(s + [x], keys');
    assert groups[x.group := [x]].Keys == groups.Keys + {x.group};
    assert (set k | k in keys') == (set k | k in keys) + {x.group};
  }

  lemma GroupedFacts(s: seq<Record>, keys: seq<int>, groups: map<int, seq<Record>>)
    requires Grouped(s, keys, groups)
    ensures Covers(s, keys) && Increasing(keys) && forall k | k in keys :: k in groups && groups[k] == Members(s, k)
  {
  }

  method GroupRecords(sorted: seq<Record>) returns (keys: seq<int>, groups: map<int, seq<Record>>)
    requires InOrder(sorted)
    ensures Grouped(sorted, keys, groups)
  {
    keys, groups := [], map[];
    for i := 0 to |sorted|
      invariant Grouped(sorted[..i], keys, groups)
    {
      var x := sorted[i];
      assert sorted[..i + 1] == sorted[..i] + [x];
      if x.group in keys {
        GroupedStep(sorted[..i], x, keys, groups);
        groups := groups[x.group := groups[x.group] + [x]];
      } else {
        GroupedNew(sorted[..i], x, keys, groups);
        keys := keys + [x.group];
        groups := groups[x.group := [x]];
      }
      hide Grouped;
    }
    assert sorted[..|sorted|] == sorted;
  }

  // ---------- selection ----------

  function Take(s: seq<Record>, n: nat): seq<Record> { if |s| <= n then s else s[..n] }

  /** `rounds` full rounds, and one record more from each of the first `extra` groups in key order. */
  ghost predicate Fair(selected: seq<Record>, sorted: seq<Record>, keys: seq<int>, rounds: nat, extra: nat) {
    && extra <= |keys|
    && forall k | 0 <= k < |keys| ::
         Members(selected, keys[k]) == Take(Members(sorted, keys[k]), rounds + if k < extra then 1 else 0)
  }

  /** Where each selected record came from: the turn within its group, and its group. */
  datatype Place = Place(turn: nat, key: nat)

  predicate Earlier(a: Place, b: Place) { a.turn < b.turn || (a.turn == b.turn && a.key < b.key) }

  ghost predicate At(x: Record, p: Place, sorted: seq<Record>, keys: seq<int>) {
    p.key < |keys| && p.turn < |Members(sorted, keys[p.key])| && x == Members(sorted, keys[p.key])[p.turn]
  }

  /** The records are selected turn by turn, and within a turn in key order. */
  ghost predicate InTurns(selected: seq<Record>, sorted: seq<Record>, keys: seq<int>, from: seq<Place>) {
    && |from| == |selected|
    && (forall i | 0 <= i < |selected| :: At(selected[i], from[i], sorted, keys))
    && (forall i, j | 0 <= i < j < |from| :: Earlier(from[i], from[j]))
  }

  lemma TakeIsPart(all: seq<Record>, n: nat, x: Record)
    ensures multiset(Take(all, n))[x] <= multiset(all)[x]
  {
    assert all == Take(all, n) + all[|Take(all, n)|..];
  }

  /** A fair selection is a sub-collection of the records. */
  lemma FairIsPart(selected: seq<Record>, sorted: seq<Record>, keys: seq<int>, rounds: nat, extra: nat)
    requires Fair(selected, sorted, keys, rounds, extra) && Covers(selected, keys)
    ensures multiset(selected) <= multiset(sorted) && |selected| <= |sorted|
  {
    forall x ensures multiset(selected)[x] <= multiset(sorted)[x] {
      if x in selected {
        var k :| 0 <= k < |keys| && keys[k] == x.group;
        MembersCount(selected, x);
        MembersCount(sorted, x);
        TakeIsPart(Members(sorted, x.group), rounds + if k < extra then 1 else 0, x);
        hide Members;
      }
    }
    PartSize(selected, sorted);
  }

  lemma PartSize(a: seq<Record>, b: seq<Record>)
    requires multiset(a) <= multiset(b)
    ensures |a| <= |b|
  {
    assert |multiset(a)| == |a| && |multiset(b)| == |b|;
    assert multiset(b) == multiset(a) + (multiset(b) - multiset(a));
  }

  /** Once every group is exhausted, everything is selected. */
  lemma ExhaustedIsAll(selected: seq<Record>, sorted: seq<Record>, keys: seq<int>, rounds: nat, extra: nat)
    requires Fair(selected, sorted, keys, rounds, extra) && Covers(selected, keys) && Covers(sorted, keys)
    requires forall k | 0 <= k < |keys| :: |Members(sorted, keys[k])| <= rounds
    ensures |selected| == |sorted|
  {
    forall x ensures multiset(selected)[x] == multiset(sorted)[x] {
      MembersCount(selected, x);
      MembersCount(sorted, x);
      if x in selected || x in sorted { var k :| 0 <= k < |keys| && keys[k] == x.group; }
    }
    SameSize(selected, sorted);
  }

  lemma TakeNext(all: seq<Record>, n: nat)
    ensures n < |all| ==> Take(all, n) + [all[n]] == Take(all, n + 1)
    ensures n >= |all| ==> Take(all, n) == Take(all, n + 1)
  {
  }

  /** A group that has nothing left keeps the selection fair. */
  lemma FairSkip(selected: seq<Record>, sorted: seq<Record>, keys: seq<int>, rounds: nat, j: nat)
    requires Fair(selected, sorted, keys, rounds, j) && j < |keys| && rounds >= |Members(sorted, keys[j])|
    ensures Fair(selected, sorted, keys, rounds, j + 1)
  {
    hide Members;
    forall k | 0 <= k < |keys|
      ensures Members(selected, keys[k]) == Take(Members(sorted, keys[k]), rounds + if k < j + 1 then 1 else 0)
    {
      TakeNext(Members(sorted, keys[k]), rounds);
    }
  }

  /** Taking the next record of group `j` keeps the selection fair. */
  lemma FairStep(selected: seq<Record>, sorted: seq<Record>, keys: seq<int>, rounds: nat, j: nat)
    requires Fair(selected, sorted, keys, rounds, j) && Increasing(keys) && j < |keys| && rounds < |Members(sorted, keys[j])|
    ensures var x := Members(sorted, keys[j])[rounds];
            Fair(selected + [x], sorted, keys, rounds, j + 1) && x.group == keys[j]
  {
    MembersBelong(sorted, keys[j]);
    hide Members, Increasing;
    var x := Members(sorted, keys[j])[rounds];
    assert x in Members(sorted, keys[j]);
    forall k | 0 <= k < |keys|
      ensures Members(selected + [x], keys[k]) == Take(Members(sorted, keys[k]), rounds + if k < j + 1 then 1 else 0)
    {
      MembersAppend(selected, x, keys[k]);
      TakeNext(Members(sorted, keys[k]), rounds);
      IncreasingDistinct(keys, k, j);
    }
  }

  lemma NextRound(selected: seq<Record>, sorted: seq<Record>, keys: seq<int>, rounds: nat)
    requires Fair(selected, sorted, keys, rounds, |keys|)
    ensures Fair(selected, sorted, keys, rounds + 1, 0)
  {
    hide Members;
  }

  lemma TurnsStep(selected: seq<Record>, sorted: seq<Record>, keys: seq<int>, from: seq<Place>, x: Record, p: Place)
    requires InTurns(selected, sorted, keys, from) && At(x, p, sorted, keys) && forall q | q in from :: Earlier(q, p)
    ensures InTurns(selected + [x], sorted, keys, from + [p])
  {
    hide At;
    var from' := from + [p];
    forall i, j | 0 <= i < j < |from'| ensures Earlier(from'[i], from'[j]) { if j == |from| { assert from[i] in from; } }
  }

  /** The result of a selection in the source's sense. */
  ghost predicate Selects(selected: seq<Record>, sorted: seq<Record>, keys: seq<int>) {
    && Covers(selected, keys)
    && (exists rounds: nat, extra: nat :: Fair(selected, sorted, keys, rounds, extra))
    && (exists from: seq<Place> :: InTurns(selected, sorted, keys, from))
  }

  /** One turn: each group in key order gives its next record while some are still wanted. */
  method Round(sorted: seq<Record>, keys: seq<int>, groups: map<int, seq<Record>>, start: seq<Record>, offset: nat, count: int, ghost places: seq<Place>)
    returns (selected: seq<Record>, progressed: bool, ghost extra: nat, ghost from: seq<Place>)
    requires Grouped(sorted, keys, groups)
    requires |start| < count && Fair(start, sorted, keys, offset, 0) && Covers(start, keys)
    requires InTurns(start, sorted, keys, places) && forall q | q in places :: q.turn < offset
    ensures |start| <= |selected| <= count && (progressed <==> |start| < |selected|)
    ensures Fair(selected, sorted, keys, offset, extra) && Covers(selected, keys) && (|selected| < count ==> extra == |keys|)
    ensures InTurns(selected, sorted, keys, from) && forall q | q in from :: q.turn <= offset
    ensures !progressed ==> forall k | 0 <= k < |keys| :: |Members(sorted, keys[k])| <= offset
  {
    hide Fair, InTurns, Members, Increasing, Grouped;
    GroupedFacts(sorted, keys, groups);
    selected, progressed, extra, from := start, false, 0, places;
    for j := 0 to |keys|
      invariant |start| <= |selected| <= count && (progressed <==> |start| < |selected|)
      invariant extra <= j && Fair(selected, sorted, keys, offset, extra) && Covers(selected, keys) && (|selected| < count ==> extra == j)
      invariant InTurns(selected, sorted, keys, from)
      invariant forall q | q in from :: Earlier(q, Place(offset, j))
      invariant !progressed ==> forall k | 0 <= k < j :: |Members(sorted, keys[k])| <= offset
    {
      assert keys[j] in keys;
      var group := groups[keys[j]];
      if |selected| < count {
        if offset < |group| { FairStep(selected, sorted, keys, offset, j); } else { FairSkip(selected, sorted, keys, offset, j); }
      }
      if offset < |group| && |selected| < count {
        TurnsStep(selected, sorted, keys, from, group[offset], Place(offset, j));
        selected := selected + [group[offset]];
        progressed := true;
        from := from + [Place(offset, j)];
        extra := j + 1;
      } else if |selected| < count {
        extra := j + 1;
      }
    }
  }

  /** All turns, until enough records are selected or no group has any left. */
  method Turns(sorted: seq<Record>, keys: seq<int>, groups: map<int, seq<Record>>, count: int)
    returns (selected: seq<Record>, ghost rounds: nat, ghost extra: nat, ghost from: seq<Place>)
    requires Grouped(sorted, keys, groups)
    ensures Covers(selected, keys) && Fair(selected, sorted, keys, rounds, extra) && InTurns(selected, sorted, keys, from)
    ensures if count <= 0 then selected == [] else |selected| <= count
    ensures |selected| < count ==> |selected| == |sorted|
  {
    selected := [];
    var offset := 0;
    rounds, extra, from := 0, 0, [];
    var progressed := true;
    assert forall k | 0 <= k < |keys| :: Take(Members(sorted, keys[k]), 0) == [];
    assert Fair(selected, sorted, keys, 0, 0) && InTurns(selected, sorted, keys, from);
    hide Fair, InTurns, Members, Grouped;
    while |selected| < count && |keys| > 0 && progressed
      invariant if count <= 0 then selected == [] else |selected| <= count
      invariant Fair(selected, sorted, keys, rounds, extra) && Covers(selected, keys)
      invariant |selected| < count && progressed ==> rounds == offset && extra == 0
      invariant InTurns(selected, sorted, keys, from) && forall q | q in from :: q.turn < offset
      invariant !progressed ==> forall k | 0 <= k < |keys| :: |Members(sorted, keys[k])| <= rounds
      decreases progressed, count - |selected|
    {
      var next, more, last, places := Round(sorted, keys, groups, selected, offset, count, from);
      selected, progressed, rounds, extra, from := next, more, offset, last, places;
      if progressed && |selected| < count {
        NextRound(selected, sorted, keys, rounds);
        rounds, extra := rounds + 1, 0;
      }
      offset := offset + 1;
    }
    if |selected| < count {
      assert Covers(sorted, keys) by { GroupedFacts(sorted, keys, groups); }
      ExhaustedIsAll(selected, sorted, keys, rounds, extra);
    }
  }

  /** `rr_select`: it succeeds exactly when the count is not negative and enough records exist; then it
      returns that many of the records, fairly and in turns. */
  method RoundRobinSelect(records: seq<Record>, count: int) returns (r: Option<seq<Record>>)
    ensures r.Some? <==> 0 <= count <= |records|
    ensures r.Some? ==> |r.value| == count && multiset(r.value) <= multiset(records)
    ensures r.Some? ==> exists keys :: Increasing(keys) && Covers(Sorted(records), keys) && Selects(r.value, Sorted(records), keys)
  {
    var sorted := Sorted(records);
    SortedInOrder(records);
    hide Fair, InTurns, Increasing, Sorted, Grouped, Covers;
    var keys, groups := GroupRecords(sorted);
    GroupedFacts(sorted, keys, groups);
    var selected, rounds, extra, from := Turns(sorted, keys, groups, count);
    FairIsPart(selected, sorted, keys, rounds, extra);
    if |selected| != count { return None; }
    assert Selects(selected, sorted, keys);
    r := Some(selected);
  }
}
