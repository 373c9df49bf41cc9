/** Assigning source families to the six data roles. Cameras and digitals are split the same way: a
    fixed number per device or subtype for the pair base, then three round-robin selections. */
module DataRoles {
  import opened Options
  import opened RoundRobin

  // ---------- families ----------

  /** How often each family occurs. */
  function Families(s: seq<Record>): multiset<int> {
    if |s| == 0 then multiset{} else Families(s[..|s| - 1]) + multiset{s[|s| - 1].family}
  }

  lemma {:induction false} FamiliesConcat(a: seq<Record>, b: seq<Record>)
    ensures Families(a + b) == Families(a) + Families(b)
  {
    if |b| == 0 {
      assert a + b == a;
    } else {
      assert (a + b)[..|a + b| - 1] == a + b[..|b| - 1];
      FamiliesConcat(a, b[..|b| - 1]);
    }
  }

  lemma FamiliesRemove(a: seq<Record>, x: Record, b: seq<Record>)
    ensures Families(a + [x] + b) == Families(a + b) + multiset{x.family}
  {
    FamiliesConcat(a + [x], b);
    FamiliesConcat(a, [x]);
    FamiliesConcat(a, b);
    FamilyOfOne(x);
    hide Families;
  }

  lemma FamilyOfOne(x: Record)
    ensures Families([x]) == multiset{x.family}
  {
    assert [x][..0] == [];
  }

  lemma MultisetRemove(init: seq<Record>, x: Record, a: seq<Record>, b: seq<Record>)
    requires multiset(init + [x]) <= multiset(a + [x] + b)
    ensures multiset(init) <= multiset(a + b)
  {
    assert multiset(init + [x]) == multiset(init) + multiset{x};
    assert multiset(a + [x] + b) == multiset(a + b) + multiset{x};
    forall y ensures multiset(init)[y] <= multiset(a + b)[y] {
      assert multiset(init + [x])[y] <= multiset(a + [x] + b)[y];
    }
  }

  /** A sub-collection of records has a sub-collection of families. */
  lemma {:induction false} FamiliesOfPart(a: seq<Record>, b: seq<Record>)
    requires multiset(a) <= multiset(b)
    ensures Families(a) <= Families(b)
    decreases |a|
  {
    if |a| > 0 {
      var init, x := a[..|a| - 1], a[|a| - 1];
      assert a == init + [x];
      assert Families(a) == Families(init) + multiset{x.family};
      hide Families;
      assert x in multiset(a) && x in multiset(b);
      var i :| 0 <= i < |b| && b[i] == x;
      assert b == b[..i] + [x] + b[i + 1..];
      MultisetRemove(init, x, b[..i], b[i + 1..]);
      FamiliesRemove(b[..i], x, b[i + 1..]);
      FamiliesOfPart(init, b[..i] + b[i + 1..]);
    }
  }

  function FamilySet(s: seq<Record>): set<int> { set x | x in s :: x.family }

  lemma {:induction false} FamilySetIs(s: seq<Record>, f: int)
    ensures f in FamilySet(s) <==> Families(s)[f] > 0
  {
    if |s| > 0 {
      FamilySetIs(s[..|s| - 1], f);
      assert s == s[..|s| - 1] + [s[|s| - 1]];
      if f in FamilySet(s) {
        var x :| x in s && x.family == f;
        assert x in s[..|s| - 1] || x == s[|s| - 1];
      }
    }
  }

  /** The records whose family is not banned. */
  function Without(s: seq<Record>, banned: set<int>): seq<Record> {
    if |s| == 0 then []
    else Without(s[..|s| - 1], banned) + if s[|s| - 1].family in banned then [] else [s[|s| - 1]]
  }

  lemma OneFamily(x: Record)
    ensures Families([x]) == multiset{x.family}
  {
    assert [x][..0] == [];
  }

  /** The last record is kept or left out. */
  lemma WithoutLast(s: seq<Record>, banned: set<int>, f: int)
    requires |s| > 0
    ensures var x := s[|s| - 1];
            Families(Without(s, banned))[f] == Families(Without(s[..|s| - 1], banned))[f] + if x.family in banned || x.family != f then 0 else 1
    ensures Families(s)[f] == Families(s[..|s| - 1])[f] + if s[|s| - 1].family == f then 1 else 0
  {
    var init, x := s[..|s| - 1], s[|s| - 1];
    var kept := Without(init, banned);
    assert Without(s, banned) == kept + if x.family in banned then [] else [x];
    assert Families(s) == Families(init) + multiset{x.family};
    hide Families, Without;
    if x.family in banned {
      assert kept + [] == kept;
    } else {
      OneFamily(x);
      FamiliesConcat(kept, [x]);
    }
  }

  lemma {:induction false} WithoutFamilies(s: seq<Record>, banned: set<int>, f: int)
    ensures Families(Without(s, banned))[f] == if f in banned then 0 else Families(s)[f]
  {
    if |s| > 0 {
      WithoutLast(s, banned, f);
      WithoutFamilies(s[..|s| - 1], banned, f);
      hide Families, Without;
    }
  }

  lemma {:induction false} FamiliesSize(s: seq<Record>)
    ensures |Families(s)| == |s|
  {
    if |s| > 0 { FamiliesSize(s[..|s| - 1]); }
  }

  /** No family has two records. */
  ghost predicate Unique(s: seq<Record>) { forall f :: Families(s)[f] <= 1 }

  /** Of a pool with unique families, filtering out the used ones leaves exactly the others. */
  lemma LeftOver(pool: seq<Record>, first: set<int>, banned: set<int>, taken: multiset<int>)
    requires Unique(pool) && taken <= Families(pool) && first <= banned
    requires forall f :: f in banned <==> taken[f] > 0
    ensures |Without(Without(pool, first), banned)| == |pool| - |taken|
  {
    var left := Without(Without(pool, first), banned);
    assert Families(left) == Families(pool) - taken by {
      hide Families, Without;
      forall f ensures Families(left)[f] == (Families(pool) - taken)[f] {
        WithoutFamilies(pool, first, f);
        WithoutFamilies(Without(pool, first), banned, f);
      }
    }
    FamiliesSize(left);
    FamiliesSize(pool);
    assert Families(pool) == (Families(pool) - taken) + taken;
  }

  // ---------- a fixed number per group ----------

  lemma {:induction false} MembersConcat(a: seq<Record>, b: seq<Record>, k: int)
    ensures Members(a + b, k) == Members(a, k) + Members(b, k)
  {
    if |b| == 0 {
      assert a + b == a;
    } else {
      assert (a + b)[..|a + b| - 1] == a + b[..|b| - 1];
      MembersConcat(a, b[..|b| - 1], k);
    }
  }

  lemma {:induction false} AllMembers(s: seq<Record>, k: int)
    requires forall x | x in s :: x.group == k
    ensures Members(s, k) == s
  {
    if |s| > 0 {
      AllMembers(s[..|s| - 1], k);
      assert s == s[..|s| - 1] + [s[|s| - 1]];
    }
  }

  ghost predicate Distinct(keys: seq<int>) { forall i, j | 0 <= i < j < |keys| :: keys[i] != keys[j] }

  lemma BlockMembers(chosen: seq<Record>, block: seq<Record>, g: int, k: int)
    requires forall x | x in block :: x.group == g
    requires forall x | x in chosen :: x.group != g
    ensures Members(chosen + block, k) == if k == g then block else Members(chosen, k)
  {
    MembersConcat(chosen, block, k);
    if k == g {
      NoMembers(chosen, k);
      AllMembers(block, k);
    } else {
      NoMembers(block, k);
    }
  }

  lemma BlockBelongs(sorted: seq<Record>, k: int, n: nat)
    ensures forall x | x in Take(Members(sorted, k), n) :: x.group == k
  {
    MembersBelong(sorted, k);
    hide Members;
    assert forall x | x in Take(Members(sorted, k), n) :: x in Members(sorted, k);
  }

  lemma NotYetVisited(chosen: seq<Record>, keys: seq<int>, i: nat)
    requires i < |keys| && Distinct(keys) && Covers(chosen, keys[..i])
    ensures forall x | x in chosen :: x.group != keys[i]
    ensures forall k | 0 <= k < i :: keys[k] != keys[i]
  {
    forall x | x in chosen ensures x.group != keys[i] {
      var k :| 0 <= k < i && keys[..i][k] == x.group;
      assert keys[k] != keys[i];
    }
  }

  /** Adding the first `n` records of a group not yet visited. */
  lemma VisitGroup(chosen: seq<Record>, sorted: seq<Record>, keys: seq<int>, i: nat, n: nat)
    requires i < |keys| && Distinct(keys) && Fair(chosen, sorted, keys[..i], n, 0) && Covers(chosen, keys[..i])
    ensures Fair(chosen + Take(Members(sorted, keys[i]), n), sorted, keys[..i + 1], n, 0)
  {
    var block, visited := Take(Members(sorted, keys[i]), n), keys[..i + 1];
    BlockBelongs(sorted, keys[i], n);
    NotYetVisited(chosen, keys, i);
    hide Members, Distinct, Covers, Take;
    forall k | 0 <= k < |visited| ensures Members(chosen + block, visited[k]) == Take(Members(sorted, visited[k]), n) {
      assert visited[k] == keys[k];
      BlockMembers(chosen, block, keys[i], keys[k]);
      if k < i { assert keys[..i][k] == keys[k]; }
    }
  }

  lemma VisitCovers(chosen: seq<Record>, sorted: seq<Record>, keys: seq<int>, i: nat, n: nat)
    requires i < |keys| && Covers(chosen, keys[..i])
    ensures Covers(chosen + Take(Members(sorted, keys[i]), n), keys[..i + 1])
  {
    BlockBelongs(sorted, keys[i], n);
    hide Members, Take;
    assert keys[..i + 1] == keys[..i] + [keys[i]];
  }

  /** How many records there are to take, at most `n` from each listed group. */
  function FirstCount(s: seq<Record>, keys: seq<int>, n: nat): nat {
    if |keys| == 0 then 0
    else FirstCount(s, keys[..|keys| - 1], n) + |Take(Members(s, keys[|keys| - 1]), n)|
  }

  lemma {:induction false} SortedMembersSize(a: seq<Record>, b: seq<Record>, k: int)
    requires multiset(a) == multiset(b)
    ensures |Members(a, k)| == |Members(b, k)|
  {
    MembersBelong(a, k);
    MembersBelong(b, k);
    forall x ensures multiset(Members(a, k))[x] == multiset(Members(b, k))[x] {
      if x.group == k {
        MembersCount(a, x);
        MembersCount(b, x);
      } else {
        assert x !in Members(a, k) && x !in Members(b, k);
      }
      hide Members;
    }
    SameSize(Members(a, k), Members(b, k));
  }

  lemma TakeSize(a: seq<Record>, b: seq<Record>, n: nat)
    requires |a| == |b|
    ensures |Take(a, n)| == |Take(b, n)|
  {
  }

  lemma {:induction false} SortedFirstCount(s: seq<Record>, keys: seq<int>, n: nat)
    ensures FirstCount(Sorted(s), keys, n) == FirstCount(s, keys, n)
  {
    hide Members, Sorted, Take;
    if |keys| > 0 {
      var k := keys[|keys| - 1];
      SortedFirstCount(s, keys[..|keys| - 1], n);
      SortedMembersSize(Sorted(s), s, k);
      TakeSize(Members(Sorted(s), k), Members(s, k), n);
    }
  }

  lemma FirstCountStep(s: seq<Record>, keys: seq<int>, i: nat, n: nat)
    requires i < |keys|
    ensures FirstCount(s, keys[..i + 1], n) == FirstCount(s, keys[..i], n) + |Take(Members(s, keys[i]), n)|
  {
    assert keys[..i + 1][..i] == keys[..i];
  }

  /** The first `n` records of each listed group, group by group. */
  function Blocks(sorted: seq<Record>, keys: seq<int>, n: nat): seq<Record> {
    if |keys| == 0 then [] else Blocks(sorted, keys[..|keys| - 1], n) + Take(Members(sorted, keys[|keys| - 1]), n)
  }

  /** The first `n` records, by family, of each listed group. */
  method FirstOfEach(s: seq<Record>, keys: seq<int>, n: nat) returns (chosen: seq<Record>)
    requires Distinct(keys)
    ensures Fair(chosen, Sorted(s), keys, n, 0) && Covers(chosen, keys) && chosen == Blocks(Sorted(s), keys, n)
    ensures Families(chosen) <= Families(s) && |chosen| == FirstCount(s, keys, n)
  {
    chosen := [];
    var sorted := Sorted(s);
    assert keys[..0] == [];
    for i := 0 to |keys|
      invariant Fair(chosen, sorted, keys[..i], n, 0) && Covers(chosen, keys[..i])
      invariant |chosen| == FirstCount(sorted, keys[..i], n) && chosen == Blocks(sorted, keys[..i], n)
    {
      FirstCountStep(sorted, keys, i, n);
      assert keys[..i + 1][..i] == keys[..i];
      VisitGroup(chosen, sorted, keys, i, n);
      VisitCovers(chosen, sorted, keys, i, n);
      chosen := chosen + Take(Members(sorted, keys[i]), n);
      hide Fair, Covers, FirstCount;
    }
    assert keys[..|keys|] == keys;
    SortedFirstCount(s, keys, n);
    FairIsPart(chosen, sorted, keys, n, 0);
    FamiliesOfPart(chosen, s);
  }

  // ---------- splitting one pool ----------

  datatype Split = Split(pair: seq<Record>, calibration: seq<Record>, dev: seq<Record>, confirm: seq<Record>)

  ghost function SplitFamilies(p: Split): multiset<int> {
    Families(p.pair) + Families(p.calibration) + Families(p.dev) + Families(p.confirm)
  }

  /** The next role takes only families no earlier role has used. */
  lemma NextRoleApart(used: multiset<int>, remaining: seq<Record>, banned: set<int>, pool: multiset<int>, chosen: seq<Record>)
    requires used <= pool && Families(remaining) <= pool
    requires forall f :: used[f] > 0 ==> f in banned
    requires Families(chosen) <= Families(Without(remaining, banned))
    ensures used + Families(chosen) <= pool
  {
    forall f ensures used[f] + Families(chosen)[f] <= pool[f] {
      WithoutFamilies(remaining, banned, f);
      hide Families;
      assert Families(chosen)[f] <= Families(Without(remaining, banned))[f];
    }
  }

  /** The records are drawn round robin from those given: turn by turn over the groups in key order. */
  ghost predicate Drawn(selected: seq<Record>, left: seq<Record>) {
    exists keys :: Increasing(keys) && Covers(Sorted(left), keys) && Selects(selected, Sorted(left), keys)
  }

  lemma {:induction false} WithoutTwice(s: seq<Record>, first: set<int>, banned: set<int>)
    requires first <= banned
    ensures Without(Without(s, first), banned) == Without(s, banned)
  {
    if |s| > 0 {
      var kept, x := Without(s[..|s| - 1], first), s[|s| - 1];
      WithoutTwice(s[..|s| - 1], first, banned);
      if x.family !in first {
        assert (kept + [x])[..|kept|] == kept;
      } else {
        assert kept + [] == kept;
      }
    }
  }

  lemma WithoutPart(s: seq<Record>, banned: set<int>)
    ensures Families(Without(s, banned)) <= Families(s)
  {
    hide Families, Without;
    forall f ensures Families(Without(s, banned))[f] <= Families(s)[f] { WithoutFamilies(s, banned, f); }
  }

  /** Select the next role from what is left. */
  method NextRole(remaining: seq<Record>, banned: set<int>, count: int, ghost used: multiset<int>, ghost pool: seq<Record>, ghost first: set<int>)
    returns (r: Option<seq<Record>>)
    requires remaining == Without(pool, first) && first <= banned
    requires used <= Families(pool) && forall f :: used[f] > 0 ==> f in banned
    ensures r.Some? ==> Drawn(r.value, Without(pool, banned))
    ensures r.Some? ==> |r.value| == count && used + Families(r.value) <= Families(pool)
    ensures r.Some? <==> 0 <= count <= |Without(remaining, banned)|
  {
    hide Families, Without, Selects, Increasing, Covers, Sorted;
    var left := Without(remaining, banned);
    WithoutTwice(pool, first, banned);
    WithoutPart(pool, first);
    r := RoundRobinSelect(left, count);
    if r.Some? {
      assert Drawn(r.value, left);
      FamiliesOfPart(r.value, left);
      NextRoleApart(used, remaining, banned, Families(pool), r.value);
    }
  }

  /** How one pool is split: the pair base takes the first records of each listed group, and then calibration,
      development and confirmation in this order each draw round robin from the families nobody has yet. */
  ghost predicate SplitsPool(p: Split, pool: seq<Record>, keys: seq<int>, perKey: nat) {
    && p.pair == Blocks(Sorted(pool), keys, perKey) && Fair(p.pair, Sorted(pool), keys, perKey, 0) && Covers(p.pair, keys)
    && Drawn(p.calibration, Without(pool, FamilySet(p.pair)))
    && Drawn(p.dev, Without(pool, FamilySet(p.pair) + FamilySet(p.calibration)))
    && Drawn(p.confirm, Without(pool, FamilySet(p.pair) + FamilySet(p.calibration) + FamilySet(p.dev)))
  }

  /** What a pool must hold: the exact number for the pair base, and enough records for every role. */
  ghost predicate Suffices(pool: seq<Record>, keys: seq<int>, perKey: nat, pairs: nat, counts: (int, int, int)) {
    && FirstCount(pool, keys, perKey) == pairs && 0 <= counts.0 && 0 <= counts.1 && 0 <= counts.2
    && pairs + counts.0 + counts.1 + counts.2 <= |pool|
  }

  /** The used families grow by those of the role just chosen. */
  lemma UsedGrows(used: set<int>, taken: multiset<int>, role: seq<Record>)
    requires forall f :: f in used <==> taken[f] > 0
    ensures forall f :: f in used + FamilySet(role) <==> (taken + Families(role))[f] > 0
    ensures |taken + Families(role)| == |taken| + |role|
  {
    FamiliesSize(role);
    hide Families, FamilySet;
    forall f ensures f in used + FamilySet(role) <==> (taken + Families(role))[f] > 0 { FamilySetIs(role, f); }
  }

  /** One pool's four roles: no family is given out more often than the pool holds it, and a pool with
      unique families is split exactly when it suffices. */
  method SplitPool(pool: seq<Record>, keys: seq<int>, perKey: nat, pairs: nat, counts: (int, int, int)) returns (r: Option<Split>)
    requires Distinct(keys)
    ensures r.Some? ==> SplitFamilies(r.value) <= Families(pool)
    ensures r.Some? ==> |r.value.pair| == pairs && |r.value.calibration| == counts.0 && |r.value.dev| == counts.1 && |r.value.confirm| == counts.2
    ensures r.Some? ==> SplitsPool(r.value, pool, keys, perKey)
    ensures Unique(pool) ==> (r.Some? <==> Suffices(pool, keys, perKey, pairs, counts))
  {
    hide Families, Without, FamilySet, Fair, Covers, FirstCount, Unique, Drawn, Blocks;
    var pair := FirstOfEach(pool, keys, perKey);
    if |pair| != pairs { return None; }
    var first := FamilySet(pair);
    var remaining := Without(pool, first);
    UsedGrows({}, multiset{}, pair);
    assert {} + first == first && multiset{} + Families(pair) == Families(pair);
    var used := first;
    ghost var taken := Families(pair);
    if Unique(pool) { LeftOver(pool, first, used, taken); }
    var calibration := NextRole(remaining, used, counts.0, taken, pool, first);
    if calibration.None? { return None; }
    UsedGrows(used, taken, calibration.value);
    used, taken := used + FamilySet(calibration.value), taken + Families(calibration.value);
    if Unique(pool) { LeftOver(pool, first, used, taken); }
    var dev := NextRole(remaining, used, counts.1, taken, pool, first);
    if dev.None? { return None; }
    UsedGrows(used, taken, dev.value);
    used, taken := used + FamilySet(dev.value), taken + Families(dev.value);
    if Unique(pool) { LeftOver(pool, first, used, taken); }
    var confirm := NextRole(remaining, used, counts.2, taken, pool, first);
    if confirm.None? { return None; }
    r := Some(Split(pair, calibration.value, dev.value, confirm.value));
  }

  // ---------- the six roles ----------

  datatype Roles = Roles(pair: seq<Record>, calibration: seq<Record>, dev: seq<Record>, confirm: seq<Record>, ddbDev: seq<Record>, ddbConfirm: seq<Record>)

  datatype Assignment = Assigned(roles: Roles) | Insufficient | RoleOverlap

  /** The four roles taken from the camera and digital pools. */
  function Pooled(r: Roles): seq<Record> { r.pair + r.calibration + r.dev + r.confirm }

  function Everyone(r: Roles): seq<Record> { Pooled(r) + r.ddbDev + r.ddbConfirm }

  /** The guard before the freeze is written: some family has more than one entry. */
  predicate Overlap(r: Roles) { exists f | f in FamilySet(Everyone(r)) :: Families(Everyone(r))[f] != 1 }

  lemma EveryoneFamilies(a: Split, b: Split, x: seq<Record>, y: seq<Record>)
    ensures var r := Roles(a.pair + b.pair, a.calibration + b.calibration, a.dev + b.dev, a.confirm + b.confirm, x, y);
            && Families(Pooled(r)) == SplitFamilies(a) + SplitFamilies(b)
            && Families(Everyone(r)) == SplitFamilies(a) + SplitFamilies(b) + Families(x) + Families(y)
  {
    hide Families;
    var r := Roles(a.pair + b.pair, a.calibration + b.calibration, a.dev + b.dev, a.confirm + b.confirm, x, y);
    FamiliesConcat(a.pair, b.pair);
    FamiliesConcat(a.calibration, b.calibration);
    FamiliesConcat(a.dev, b.dev);
    FamiliesConcat(a.confirm, b.confirm);
    FamiliesConcat(r.pair, r.calibration);
    FamiliesConcat(r.pair + r.calibration, r.dev);
    FamiliesConcat(r.pair + r.calibration + r.dev, r.confirm);
    FamiliesConcat(r.pair + r.calibration + r.dev + r.confirm, x);
    FamiliesConcat(r.pair + r.calibration + r.dev + r.confirm + x, y);
  }

  /** Nobody is given out more often than the inputs hold: the pooled roles come from the unsealed cameras
      and digitals, the transfer roles from the transfer records. */
  ghost predicate Within(r: Roles, cameras: seq<Record>, digitals: seq<Record>, ddb: seq<Record>, sealed: set<int>) {
    && Families(Pooled(r)) <= Families(Without(cameras, sealed)) + Families(Without(digitals, sealed))
    && Families(r.ddbDev + r.ddbConfirm) <= Families(ddb)
  }

  lemma WithinAll(r: Roles, cameras: seq<Record>, digitals: seq<Record>, ddb: seq<Record>, sealed: set<int>)
    requires Within(r, cameras, digitals, ddb, sealed)
    ensures Families(Everyone(r)) <= Families(Without(cameras, sealed)) + Families(Without(digitals, sealed)) + Families(ddb)
  {
    hide Families, Without, Pooled;
    FamiliesConcat(Pooled(r) + r.ddbDev, r.ddbConfirm);
    FamiliesConcat(Pooled(r), r.ddbDev);
    FamiliesConcat(r.ddbDev, r.ddbConfirm);
  }

  /** Sealed families are kept out of the pooled roles, and of the transfer roles only by their records:
      the assignment avoids the sealed families exactly when the transfer records do. */
  lemma SealedAvoidedExactly(r: Roles, cameras: seq<Record>, digitals: seq<Record>, ddb: seq<Record>, sealed: set<int>)
    requires Within(r, cameras, digitals, ddb, sealed)
    ensures FamilySet(Pooled(r)) !! sealed
    ensures FamilySet(Everyone(r)) !! sealed <==> FamilySet(r.ddbDev + r.ddbConfirm) !! sealed
  {
    hide Families, Without, Pooled;
    forall f | f in sealed ensures f !in FamilySet(Pooled(r)) {
      WithoutFamilies(cameras, sealed, f);
      WithoutFamilies(digitals, sealed, f);
      FamilySetIs(Pooled(r), f);
      assert Families(Pooled(r))[f] <= (Families(Without(cameras, sealed)) + Families(Without(digitals, sealed)))[f];
    }
    assert FamilySet(Everyone(r)) == FamilySet(Pooled(r)) + FamilySet(r.ddbDev + r.ddbConfirm) by {
      FamilySetUnion(Pooled(r), r.ddbDev, r.ddbConfirm);
    }
  }

  lemma FamilySetUnion(a: seq<Record>, b: seq<Record>, c: seq<Record>)
    ensures FamilySet(a + b + c) == FamilySet(a) + FamilySet(b + c)
  {
    forall f ensures f in FamilySet(a + b + c) <==> f in FamilySet(a) + FamilySet(b + c) {
      FamilySetIs(a + b + c, f);
      FamilySetIs(a, f);
      FamilySetIs(b + c, f);
      FamiliesConcat(a + b, c);
      FamiliesConcat(a, b);
      FamiliesConcat(b, c);
      hide Families, FamilySet;
    }
  }

  lemma UniqueMeansNoOverlap(r: Roles, cameras: seq<Record>, digitals: seq<Record>, ddb: seq<Record>, sealed: set<int>)
    requires Within(r, cameras, digitals, ddb, sealed) && Unique(cameras + digitals + ddb)
    ensures !Overlap(r) && Unique(Everyone(r))
    ensures FamilySet(Everyone(r)) !! sealed <==> FamilySet(r.ddbDev + r.ddbConfirm) !! sealed
    ensures sealed <= FamilySet(cameras + digitals) ==> FamilySet(Everyone(r)) !! sealed
  {
    SealedAvoidedExactly(r, cameras, digitals, ddb, sealed);
    FamiliesConcat(cameras + digitals, ddb);
    FamiliesConcat(cameras, digitals);
    WithinAll(r, cameras, digitals, ddb, sealed);
    hide Families, Everyone, Pooled, Within;
    forall f ensures Families(Everyone(r))[f] <= 1 && (f in FamilySet(Everyone(r)) ==> Families(Everyone(r))[f] == 1)
      && (f in sealed && sealed <= FamilySet(cameras + digitals) ==> f !in FamilySet(Everyone(r)))
    {
      WithoutFamilies(cameras, sealed, f);
      WithoutFamilies(digitals, sealed, f);
      FamilySetIs(Everyone(r), f);
      FamilySetIs(cameras + digitals, f);
      assert Families(cameras + digitals + ddb)[f] <= 1;
      assert Families(Everyone(r))[f] <= Families(Without(cameras, sealed))[f] + Families(Without(digitals, sealed))[f] + Families(ddb)[f];
    }
  }

  lemma HalvesOf(ddb: seq<Record>)
    requires |ddb| >= 128
    ensures Families(ddb[..64]) + Families(ddb[64..128]) <= Families(ddb)
  {
    assert ddb == ddb[..64] + ddb[64..128] + ddb[128..];
    FamiliesConcat(ddb[..64] + ddb[64..128], ddb[128..]);
    FamiliesConcat(ddb[..64], ddb[64..128]);
  }

  lemma UniquePools(cameras: seq<Record>, digitals: seq<Record>, ddb: seq<Record>, sealed: set<int>)
    requires Unique(cameras + digitals + ddb)
    ensures Unique(Without(cameras, sealed)) && Unique(Without(digitals, sealed))
  {
    FamiliesConcat(cameras + digitals, ddb);
    FamiliesConcat(cameras, digitals);
    hide Families, Without;
    forall f ensures Families(Without(cameras, sealed))[f] <= 1 && Families(Without(digitals, sealed))[f] <= 1 {
      WithoutFamilies(cameras, sealed, f);
      WithoutFamilies(digitals, sealed, f);
      assert Families(cameras + digitals + ddb)[f] <= 1;
    }
  }

  /** The subtypes are exactly the groups that occur, in order. */
  lemma SubtypesOf(s: seq<Record>, keys: seq<int>, groups: map<int, seq<Record>>)
    requires Grouped(Sorted(s), keys, groups)
    ensures Increasing(keys) && Distinct(keys) && forall k :: k in keys <==> Occurs(s, k)
  {
    var sorted := Sorted(s);
    forall x ensures x in s <==> x in sorted { assert x in multiset(s) <==> x in multiset(sorted); }
    hide Sorted, Members;
    forall k ensures k in keys <==> Occurs(s, k) {
      if k in keys {
        assert Occurs(sorted, k);
        var x :| x in sorted && x.group == k;
        assert x in s;
      }
      if Occurs(s, k) {
        var x :| x in s && x.group == k;
        assert x in sorted;
      }
    }
  }

  /** Each pooled role is its camera part and then its digital part. */
  ghost predicate Joins(r: Roles, c: Split, d: Split) {
    r.pair == c.pair + d.pair && r.calibration == c.calibration + d.calibration && r.dev == c.dev + d.dev && r.confirm == c.confirm + d.confirm
  }

  ghost predicate Sized(p: Split, pair: nat, calibration: nat, dev: nat, confirm: nat) {
    |p.pair| == pair && |p.calibration| == calibration && |p.dev| == dev && |p.confirm| == confirm
  }

  /** The pooled roles are the splits of the two pools: three of each base device and four of each subtype
      for the pair base, the rest drawn round robin in the order of the roles. */
  ghost predicate Pools(r: Roles, cameras: seq<Record>, devices: seq<int>, digitals: seq<Record>, subtypes: seq<int>) {
    exists c, d ::
      && Joins(r, c, d) && Sized(c, 36, 16, 16, 24) && Sized(d, 24, 12, 12, 16)
      && SplitsPool(c, cameras, devices, 3) && SplitsPool(d, digitals, subtypes, 4)
  }

  /** The role assignment of `main`. `ddb` lists the transfer records not used before, by sample id;
      `subtypes` names the subtypes of the unsealed digitals in order. */
  method AssignRoles(cameras: seq<Record>, digitals: seq<Record>, ddb: seq<Record>, sealed: set<int>, devices: seq<int>)
    returns (a: Assignment, ghost subtypes: seq<int>)
    requires Distinct(devices)
    ensures a.Assigned? ==> Within(a.roles, cameras, digitals, ddb, sealed) && !Overlap(a.roles)
    ensures a.Assigned? ==> Pools(a.roles, Without(cameras, sealed), devices, Without(digitals, sealed), subtypes)
    ensures a.Assigned? ==> |a.roles.pair| == 60 && |a.roles.calibration| == 28 && |a.roles.dev| == 28 && |a.roles.confirm| == 40
    ensures a.Assigned? ==> |ddb| >= 128 && a.roles.ddbDev + a.roles.ddbConfirm == ddb[..128] && |a.roles.ddbDev| == |a.roles.ddbConfirm| == 64
    ensures a.Assigned? ==> |ddb| >= 128 && a.roles.ddbDev == ddb[..64]
    ensures a.Assigned? ==> (FamilySet(Everyone(a.roles)) !! sealed <==> FamilySet(ddb[..128]) !! sealed)
    ensures Increasing(subtypes) && forall k :: k in subtypes <==> Occurs(Without(digitals, sealed), k)
    ensures Unique(cameras + digitals + ddb) ==> a != RoleOverlap
    ensures Unique(cameras + digitals + ddb) ==>
      (a.Assigned? <==> && Suffices(Without(cameras, sealed), devices, 3, 36, (16, 16, 24))
                        && Suffices(Without(digitals, sealed), subtypes, 4, 24, (12, 12, 16)) && |ddb| >= 128)
  {
    hide Families, FamilySet, Without, Overlap, Unique, Fair, Covers, Grouped, Suffices, Increasing, Occurs, Distinct, SplitFamilies, Everyone, Pooled, SplitsPool;
    var available := Without(digitals, sealed);
    SortedInOrder(available);
    var keys, groups := GroupRecords(Sorted(available));
    SubtypesOf(available, keys, groups);
    subtypes := keys;
    if Unique(cameras + digitals + ddb) { UniquePools(cameras, digitals, ddb, sealed); }
    var c := SplitPool(Without(cameras, sealed), devices, 3, 36, (16, 16, 24));
    if c.None? { return Insufficient, keys; }
    var d := SplitPool(available, keys, 4, 24, (12, 12, 16));
    if d.None? || |ddb| < 128 { return Insufficient, keys; }
    var x, y := c.value, d.value;
    var roles := Roles(x.pair + y.pair, x.calibration + y.calibration, x.dev + y.dev, x.confirm + y.confirm, ddb[..64], ddb[64..128]);
    EveryoneFamilies(x, y, ddb[..64], ddb[64..128]);
    HalvesOf(ddb);
    FamiliesConcat(ddb[..64], ddb[64..128]);
    assert Within(roles, cameras, digitals, ddb, sealed);
    if Unique(cameras + digitals + ddb) { UniqueMeansNoOverlap(roles, cameras, digitals, ddb, sealed); }
    if Overlap(roles) { return RoleOverlap, keys; }
    a := Assigned(roles);
    assert Joins(roles, x, y) && Sized(x, 36, 16, 16, 24) && Sized(y, 24, 12, 12, 16);
    assert roles.ddbDev + roles.ddbConfirm == ddb[..128];
    SealedAvoidedExactly(roles, cameras, digitals, ddb, sealed);
  }

  lemma {:induction false} WithoutAbsent(s: seq<Record>, banned: set<int>, f: int)
    requires f !in FamilySet(s)
    ensures Without(s, banned + {f}) == Without(s, banned)
  {
    if |s| > 0 {
      assert s == s[..|s| - 1] + [s[|s| - 1]];
      assert s[|s| - 1] in s;
      WithoutAbsent(s[..|s| - 1], banned, f);
    }
  }

  /** With unique families a transfer family is no camera or digital one. */
  lemma TransferFamily(cameras: seq<Record>, digitals: seq<Record>, ddb: seq<Record>, n: nat, f: int)
    requires Unique(cameras + digitals + ddb) && n <= |ddb| && f in FamilySet(ddb[..n])
    ensures f !in FamilySet(cameras) && f !in FamilySet(digitals)
  {
    FamiliesConcat(cameras + digitals, ddb);
    FamiliesConcat(cameras, digitals);
    assert ddb == ddb[..n] + ddb[n..];
    FamiliesConcat(ddb[..n], ddb[n..]);
    assert Families(cameras + digitals + ddb)[f] <= 1;
    hide Families, FamilySet, Unique;
    FamilySetIs(cameras, f);
    FamilySetIs(digitals, f);
    FamilySetIs(ddb[..n], f);
  }

  lemma {:induction false} IncreasingUnique(s: seq<int>, t: seq<int>)
    requires Increasing(s) && Increasing(t) && forall k :: k in s <==> k in t
    ensures s == t
  {
    assert |t| > 0 ==> t[0] in t && t[0] in s;
    if |s| > 0 {
      assert s[0] in s && s[0] in t;
      var i :| 0 <= i < |t| && t[i] == s[0];
      assert t[0] in s;
      var j :| 0 <= j < |s| && s[j] == t[0];
      assert s[0] == t[0];
      assert s == [s[0]] + s[1..] && t == [t[0]] + t[1..];
      forall k ensures k in s[1..] <==> k in t[1..] {
        assert k in s <==> k in t;
        assert s[0] !in s[1..] && t[0] !in t[1..];
      }
      IncreasingUnique(s[1..], t[1..]);
    }
  }

  /** Sealing a family does not keep it out of the transfer roles: with unique families, seal any family of
      the first 128 transfer records as well, and the assignment succeeds as before and gives it out. */
  method AssignSealedFamily(cameras: seq<Record>, digitals: seq<Record>, ddb: seq<Record>, sealed: set<int>, devices: seq<int>, f: int)
    returns (before: Assignment, after: Assignment)
    requires Distinct(devices) && Unique(cameras + digitals + ddb) && |ddb| >= 128 && f in FamilySet(ddb[..128])
    ensures before.Assigned? <==> after.Assigned?
    ensures after.Assigned? ==> f in FamilySet(Everyone(after.roles))
  {
    TransferFamily(cameras, digitals, ddb, 128, f);
    WithoutAbsent(cameras, sealed, f);
    WithoutAbsent(digitals, sealed, f);
    hide Families, FamilySet, Without, Overlap, Unique, Within, Suffices, Increasing, Occurs, Distinct, Everyone, Pooled;
    ghost var s, t;
    before, s := AssignRoles(cameras, digitals, ddb, sealed, devices);
    after, t := AssignRoles(cameras, digitals, ddb, sealed + {f}, devices);
    IncreasingUnique(s, t);
    if after.Assigned? { TransferAssigned(after.roles, ddb[..128], f); }
  }

  lemma TransferAssigned(r: Roles, transfer: seq<Record>, f: int)
    requires r.ddbDev + r.ddbConfirm == transfer && f in FamilySet(transfer)
    ensures f in FamilySet(Everyone(r))
  {
    FamilySetUnion(Pooled(r), r.ddbDev, r.ddbConfirm);
  }

  function RoleAt(r: Roles, i: nat): seq<Record> {
    match i
    case 0 => r.pair
    case 1 => r.calibration
    case 2 => r.dev
    case 3 => r.confirm
    case 4 => r.ddbDev
    case _ => r.ddbConfirm
  }

  /** In an assignment no family has two entries, so the six roles are pairwise disjoint. */
  lemma RolesAreDisjoint(r: Roles, i: nat, j: nat)
    requires !Overlap(r) && i < j < 6
    ensures FamilySet(RoleAt(r, i)) !! FamilySet(RoleAt(r, j))
  {
    hide Families, FamilySet, Overlap, Everyone;
    forall f ensures !(f in FamilySet(RoleAt(r, i)) && f in FamilySet(RoleAt(r, j))) {
      FamilySetIs(RoleAt(r, i), f);
      FamilySetIs(RoleAt(r, j), f);
      AtMostOnce(r, f);
      EveryoneCounts(r, f);
    }
  }

  lemma AtMostOnce(r: Roles, f: int)
    requires !Overlap(r)
    ensures Families(Everyone(r))[f] <= 1
  {
    FamilySetIs(Everyone(r), f);
    hide Families, FamilySet, Everyone;
  }

  lemma EveryoneCounts(r: Roles, f: int)
    ensures Families(Everyone(r))[f] == Families(r.pair)[f] + Families(r.calibration)[f] + Families(r.dev)[f]
                                        + Families(r.confirm)[f] + Families(r.ddbDev)[f] + Families(r.ddbConfirm)[f]
  {
    hide Families;
    FamiliesConcat(r.pair, r.calibration);
    FamiliesConcat(r.pair + r.calibration, r.dev);
    FamiliesConcat(r.pair + r.calibration + r.dev, r.confirm);
    FamiliesConcat(r.pair + r.calibration + r.dev + r.confirm, r.ddbDev);
    FamiliesConcat(r.pair + r.calibration + r.dev + r.confirm + r.ddbDev, r.ddbConfirm);
  }
}
