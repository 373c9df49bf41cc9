/** The release identities a browser tab has already tried to reload for, as kept in session storage. */
module ReleaseStorage {
  function LowerChar(c: char): char { if 'A' <= c <= 'Z' then (c as int + 32) as char else c }

  function Lower(s: string): string { seq(|s|, i requires 0 <= i < |s| => LowerChar(s[i])) }

  predicate HexChar(c: char) { '0' <= c <= '9' || 'a' <= c <= 'f' || 'A' <= c <= 'F' }

  const ID_LENGTH := 64

  predicate ValidId(s: string) { |s| == ID_LENGTH && forall c | c in s :: HexChar(c) }

  /** The stored value: nothing, a bare identity (the legacy format), the versioned list, or junk. */
  datatype Stored = Absent | Bare(text: string) | Listed(version: int, ids: seq<string>) | Junk

  /** Keep the well-formed entries, in lower case, each once, in first-seen order. */
  function Normalise(ids: seq<string>): (r: seq<string>)
    ensures forall x :: x in r <==> exists id | id in ids :: ValidId(id) && Lower(id) == x
    ensures forall i, j | 0 <= i < j < |r| :: r[i] != r[j]
  {
    if |ids| == 0 then []
    else
      var rest := Normalise(ids[..|ids| - 1]);
      var id := ids[|ids| - 1];
      assert ids == ids[..|ids| - 1] + [id];
      if ValidId(id) && Lower(id) !in rest then rest + [Lower(id)] else rest
  }

  function Read(st: Stored): (r: seq<string>)
    ensures forall i, j | 0 <= i < j < |r| :: r[i] != r[j]
  {
    match st
    case Absent => []
    case Bare(text) => if ValidId(text) then [Lower(text)] else []
    case Listed(version, ids) => if version == 1 then Normalise(ids) else []
    case Junk => []
  }

  predicate Attempted(st: Stored, id: string) { Lower(id) in Read(st) }

  /** `rememberAttempt`; a refused write is reported, never half done. */
  function Remember(st: Stored, id: string, writable: bool): (Stored, bool) {
    if Lower(id) in Read(st) then (st, true)
    else if !writable then (st, false)
    else (Listed(1, Read(st) + [Lower(id)]), true)
  }

  function Without(ids: seq<string>, id: string): (r: seq<string>)
    ensures forall x :: x in r <==> x in ids && x != id
    ensures |r| <= |ids| && (|r| == |ids| ==> r == ids)
  {
    if |ids| == 0 then []
    else
      assert ids == ids[..|ids| - 1] + [ids[|ids| - 1]];
      if ids[|ids| - 1] == id then Without(ids[..|ids| - 1], id) else Without(ids[..|ids| - 1], id) + [ids[|ids| - 1]]
  }

  /** `clearAttempt`. */
  function Clear(st: Stored, id: string, writable: bool): Stored {
    var remaining := Without(Read(st), Lower(id));
    if |remaining| == |Read(st)| || !writable then st
    else if |remaining| == 0 then Absent
    else Listed(1, remaining)
  }

  lemma LowerIdempotent(s: string)
    ensures Lower(Lower(s)) == Lower(s)
    ensures ValidId(s) ==> ValidId(Lower(s))
  {
    var l := Lower(s);
    assert forall i | 0 <= i < |s| :: l[i] == LowerChar(s[i]);
    if ValidId(s) {
      forall c | c in l ensures HexChar(c) {
        var i :| 0 <= i < |l| && l[i] == c;
        assert s[i] in s;
      }
    }
    assert Lower(l) == l;
  }

  /** Everything read from storage is a lower-case identity. */
  lemma ReadIsNormal(st: Stored, x: string)
    requires x in Read(st)
    ensures ValidId(x) && Lower(x) == x
  {
    match st {
      case Bare(text) => LowerIdempotent(text);
      case Listed(_, ids) =>
        var id :| id in ids && ValidId(id) && Lower(id) == x;
        LowerIdempotent(id);
      case _ =>
    }
  }

  lemma NormaliseNormal(ids: seq<string>, x: string)
    requires forall y | y in ids :: ValidId(y) && Lower(y) == y
    ensures x in Normalise(ids) <==> x in ids
  {
  }

  lemma ListedReads(ids: seq<string>, x: string)
    requires forall y | y in ids :: ValidId(y) && Lower(y) == y
    ensures x in Read(Listed(1, ids)) <==> x in ids
  {
    hide ValidId, Lower;
    NormaliseNormal(ids, x);
  }

  /** Remembering adds exactly one identity to what is read back. */
  lemma RememberReads(st: Stored, id: string, writable: bool, x: string)
    requires ValidId(id)
    ensures Remember(st, id, writable).1 ==> (x in Read(Remember(st, id, writable).0) <==> x in Read(st) || x == Lower(id))
    ensures !Remember(st, id, writable).1 ==> Remember(st, id, writable).0 == st
  {
    LowerIdempotent(id);
    hide ValidId, Lower, Read;
    var all := Read(st) + [Lower(id)];
    forall y | y in all ensures ValidId(y) && Lower(y) == y { if y in Read(st) { ReadIsNormal(st, y); } }
    ListedReads(all, x);
  }

  /** Clearing removes at most that identity and nothing else; on writable storage it does remove it. */
  lemma ClearReads(st: Stored, id: string, writable: bool, x: string)
    ensures x != Lower(id) ==> (x in Read(Clear(st, id, writable)) <==> x in Read(st))
    ensures x in Read(Clear(st, id, writable)) ==> x in Read(st)
    ensures writable ==> Lower(id) !in Read(Clear(st, id, writable))
  {
    hide ValidId, Lower;
    var remaining := Without(Read(st), Lower(id));
    forall y | y in remaining ensures ValidId(y) && Lower(y) == y { ReadIsNormal(st, y); }
    ListedReads(remaining, x);
    ListedReads(remaining, Lower(id));
  }
}
