/** The history cursor: the request's scope and the last row's position, as JSON text in a URL-safe
    transport. A cursor is honoured only under the very scope it was issued for. */
module HistoryCursor {
  import opened Options
  import opened Base64Url

  // ---------- JSON text ----------

  predicate Printable(s: string) { forall c | c in s :: ' ' <= c <= '~' }

  function Escape(s: string): string {
    if |s| == 0 then ""
    else (if s[0] == '"' || s[0] == '\\' then ['\\', s[0]] else [s[0]]) + Escape(s[1..])
  }

  function Quote(s: string): string { "\"" + Escape(s) + "\"" }

  /** Read an escaped text up to its closing quote; the rest of the input follows. */
  function ReadText(t: string): Option<(string, string)> {
    if |t| == 0 then None
    else if t[0] == '"' then Some(("", t[1..]))
    else if t[0] == '\\' then
      if |t| < 2 || (t[1] != '"' && t[1] != '\\') then None
      else
        match ReadText(t[2..])
        case None => None
        case Some((s, rest)) => Some(([t[1]] + s, rest))
    else
      match ReadText(t[1..])
      case None => None
      case Some((s, rest)) => Some(([t[0]] + s, rest))
  }

  function Expect(t: string, literal: string): Option<string> {
    if |literal| <= |t| && t[..|literal|] == literal then Some(t[|literal|..]) else None
  }

  lemma {:induction false} ReadEscape(s: string, rest: string)
    ensures ReadText(Escape(s) + "\"" + rest) == Some((s, rest))
  {
    var t := Escape(s) + "\"" + rest;
    if |s| == 0 {
      assert t[1..] == rest;
    } else {
      ReadEscape(s[1..], rest);
      var tail := Escape(s[1..]) + "\"" + rest;
      assert s == [s[0]] + s[1..];
      if s[0] == '"' || s[0] == '\\' { assert t[2..] == tail; } else { assert t[1..] == tail; }
    }
  }

  lemma ExpectLiteral(literal: string, rest: string)
    ensures Expect(literal + rest, literal) == Some(rest)
  {
  }

  /** A member: a literal such as `,"id":` and then a quoted text or null. */
  function Member(literal: string, value: Option<string>): string {
    literal + if value.Some? then Quote(value.value) else "null"
  }

  function ReadMember(t: string, literal: string): Option<(Option<string>, string)> {
    match Expect(t, literal)
    case None => None
    case Some(v) =>
      if |v| >= 1 && v[0] == '"' then
        (match ReadText(v[1..])
         case None => None
         case Some((s, rest)) => Some((Some(s), rest)))
      else
        match Expect(v, "null")
        case None => None
        case Some(rest) => Some((None, rest))
  }

  lemma ReadMemberOf(literal: string, value: Option<string>, rest: string)
    ensures ReadMember(Member(literal, value) + rest, literal) == Some((value, rest))
  {
    var v := (if value.Some? then Quote(value.value) else "null") + rest;
    assert Member(literal, value) + rest == literal + v;
    ExpectLiteral(literal, v);
    if value.Some? {
      assert v[1..] == Escape(value.value) + "\"" + rest;
      ReadEscape(value.value, rest);
    } else {
      ExpectLiteral("null", rest);
    }
  }

  /** An object is its members in order and a closing brace; the literals carry its punctuation. */
  function Object(literals: seq<string>, values: seq<Option<string>>): string
    requires |literals| == |values|
  {
    if |literals| == 0 then "}" else Member(literals[0], values[0]) + Object(literals[1..], values[1..])
  }

  function ReadObject(t: string, literals: seq<string>): Option<seq<Option<string>>>
    decreases |literals|
  {
    if |literals| == 0 then if t == "}" then Some([]) else None
    else
      match ReadMember(t, literals[0])
      case None => None
      case Some((v, rest)) =>
        match ReadObject(rest, literals[1..])
        case None => None
        case Some(vs) => Some([v] + vs)
  }

  lemma {:induction false} ReadObjectOf(literals: seq<string>, values: seq<Option<string>>)
    requires |literals| == |values|
    ensures ReadObject(Object(literals, values), literals) == Some(values)
  {
    if |literals| > 0 {
      var rest := Object(literals[1..], values[1..]);
      ReadMemberOf(literals[0], values[0], rest);
      ReadObjectOf(literals[1..], values[1..]);
      assert values == [values[0]] + values[1..];
      assert Object(literals, values) == Member(literals[0], values[0]) + rest;
      hide Member, ReadMember, Object;
    }
  }

  // ---------- scope and cursor ----------

  datatype Scope = Scope(
    userId: string, source: Option<string>, eventType: Option<string>, correlationId: Option<string>,
    since: Option<string>, until: Option<string>, order: string)

  const SCOPE_MEMBERS: seq<string> := ["{\"userId\":", ",\"source\":", ",\"eventType\":", ",\"correlationId\":", ",\"since\":", ",\"until\":", ",\"order\":"]

  function ScopeText(s: Scope): string {
    Object(SCOPE_MEMBERS, [Some(s.userId), s.source, s.eventType, s.correlationId, s.since, s.until, Some(s.order)])
  }

  /** Different requests have different scope texts. */
  lemma ScopeTextInjective(a: Scope, b: Scope)
    requires ScopeText(a) == ScopeText(b)
    ensures a == b
  {
    var x := [Some(a.userId), a.source, a.eventType, a.correlationId, a.since, a.until, Some(a.order)];
    var y := [Some(b.userId), b.source, b.eventType, b.correlationId, b.since, b.until, Some(b.order)];
    ReadObjectOf(SCOPE_MEMBERS, x);
    ReadObjectOf(SCOPE_MEMBERS, y);
    assert x == y;
    assert x[0] == y[0] && x[1] == y[1] && x[2] == y[2] && x[3] == y[3] && x[4] == y[4] && x[5] == y[5] && x[6] == y[6];
  }

  datatype Cursor = Cursor(scope: string, snapshotAt: string, createdAt: string, id: string, source: string)

  const CURSOR_MEMBERS: seq<string> := ["{\"scope\":", ",\"snapshotAt\":", ",\"createdAt\":", ",\"id\":", ",\"source\":"]

  function CursorText(c: Cursor): string {
    Object(CURSOR_MEMBERS, [Some(c.scope), Some(c.snapshotAt), Some(c.createdAt), Some(c.id), Some(c.source)])
  }

  function ReadCursor(t: string): Option<Cursor> {
    match ReadObject(t, CURSOR_MEMBERS)
    case None => None
    case Some(v) =>
      if |v| == 5 && v[0].Some? && v[1].Some? && v[2].Some? && v[3].Some? && v[4].Some?
      then Some(Cursor(v[0].value, v[1].value, v[2].value, v[3].value, v[4].value)) else None
  }

  function ToBytes(t: string): seq<Byte>
    requires Printable(t)
  {
    seq(|t|, i requires 0 <= i < |t| => assert t[i] in t; (t[i] as int) as Byte)
  }

  function ToText(b: seq<Byte>): string { seq(|b|, i requires 0 <= i < |b| => (b[i] as int) as char) }

  function Issue(c: Cursor): string
    requires Printable(CursorText(c))
  {
    Encode(ToBytes(CursorText(c)))
  }

  const MAX_CURSOR := 2048

  predicate Hex(c: char) { '0' <= c <= '9' || 'a' <= c <= 'f' || 'A' <= c <= 'F' }

  predicate Uuid(s: string) {
    && |s| == 36 && s[8] == s[13] == s[18] == s[23] == '-'
    && (forall i | 0 <= i < 36 && i != 8 && i != 13 && i != 18 && i != 23 :: Hex(s[i]))
    && '1' <= s[14] <= '8' && s[19] in {'8', '9', 'a', 'b', 'A', 'B'}
  }

  /** The exact microsecond form the database renders; that the date exists is not checked here. */
  predicate Stamp(s: string) {
    && |s| == 27 && s[4] == s[7] == '-' && s[10] == 'T' && s[13] == s[16] == ':' && s[19] == '.' && s[26] == 'Z'
    && (forall i | 0 <= i < 26 && i !in {4, 7, 10, 13, 16, 19} :: '0' <= s[i] <= '9')
  }

  predicate KnownSource(s: string) { s in {"account", "activity", "audit"} }

  /** The checks `historyRequest` makes on a presented cursor. */
  function Accept(text: string, scope: string): Option<Cursor> {
    if |text| == 0 || |text| > MAX_CURSOR || exists c | c in text :: !UrlSafe(c) then None
    else
      match Decode(text)
      case None => None
      case Some(b) =>
        match ReadCursor(ToText(b))
        case None => None
        case Some(c) =>
          if c.scope != scope || !Uuid(c.id) || !KnownSource(c.source) || !Stamp(c.snapshotAt) || !Stamp(c.createdAt) then None
          else Some(c)
  }

  // ---------- what a request may contain ----------

  predicate CodeChar(c: char) { 'A' <= c <= 'Z' || 'a' <= c <= 'z' || '0' <= c <= '9' || c == '_' || c == '.' || c == ':' || c == '-' }

  predicate Code(s: string, maximum: nat) { |s| <= maximum && forall c | c in s :: CodeChar(c) }

  predicate OptionalCode(s: Option<string>, maximum: nat) { s.Some? ==> Code(s.value, maximum) }

  predicate ScopeOk(s: Scope) {
    && Uuid(s.userId) && (s.source.Some? ==> KnownSource(s.source.value))
    && OptionalCode(s.eventType, 100) && OptionalCode(s.correlationId, 128)
    && (s.since.Some? ==> Stamp(s.since.value)) && (s.until.Some? ==> Stamp(s.until.value))
    && s.order in {"newest", "oldest"}
  }

  predicate CursorOk(c: Cursor) { Uuid(c.id) && KnownSource(c.source) && Stamp(c.snapshotAt) && Stamp(c.createdAt) }

  lemma UuidIsCode(s: string)
    requires Uuid(s)
    ensures Code(s, 36)
  {
    forall c | c in s ensures CodeChar(c) { var i :| 0 <= i < |s| && s[i] == c; }
  }

  lemma StampIsCode(s: string)
    requires Stamp(s)
    ensures Code(s, 27)
  {
    forall c | c in s ensures CodeChar(c) { var i :| 0 <= i < |s| && s[i] == c; }
  }

  lemma SourceIsCode(s: string)
    requires KnownSource(s)
    ensures Code(s, 8)
  {
  }

  lemma {:induction false} CodeNeedsNoEscape(s: string)
    requires forall c | c in s :: CodeChar(c)
    ensures Escape(s) == s && Printable(s)
  {
    if |s| > 0 {
      assert s[0] in s;
      CodeNeedsNoEscape(s[1..]);
      assert s == [s[0]] + s[1..];
    }
  }

  lemma {:induction false} EscapeBounds(s: string)
    requires Printable(s)
    ensures Printable(Escape(s)) && |Escape(s)| <= 2 * |s|
  {
    if |s| > 0 {
      assert forall i | 0 <= i < |s| :: s[i] in s;
      EscapeBounds(s[1..]);
    }
  }

  // ---------- size of the texts ----------

  ghost predicate Fits(t: string, n: nat) { Printable(t) && |t| <= n }

  lemma CodeMember(literal: string, value: Option<string>, maximum: nat)
    requires OptionalCode(value, maximum) && maximum >= 2 && Printable(literal)
    ensures Fits(Member(literal, value), |literal| + maximum + 2)
  {
    if value.Some? { CodeNeedsNoEscape(value.value); }
  }

  lemma AnyMember(literal: string, value: string, maximum: nat)
    requires Fits(value, maximum) && Printable(literal)
    ensures Fits(Member(literal, Some(value)), |literal| + 2 * maximum + 2)
  {
    EscapeBounds(value);
  }

  /** An object grows by its members, from the last one backwards. */
  lemma TailFits(m: seq<string>, v: seq<Option<string>>, i: nat, k: nat, n: nat)
    requires |m| == |v| && i < |m| && Fits(Member(m[i], v[i]), k) && Fits(Object(m[i + 1..], v[i + 1..]), n)
    ensures Fits(Object(m[i..], v[i..]), k + n)
  {
    hide Member;
    assert m[i..][1..] == m[i + 1..] && v[i..][1..] == v[i + 1..];
  }

  lemma CodesFit(m: seq<string>, v: seq<Option<string>>, i: nat, maximum: nat, n: nat)
    requires |m| == |v| && i < |m| && Printable(m[i]) && OptionalCode(v[i], maximum) && maximum >= 2
    requires Fits(Object(m[i + 1..], v[i + 1..]), n)
    ensures Fits(Object(m[i..], v[i..]), |m[i]| + maximum + 2 + n)
  {
    CodeMember(m[i], v[i], maximum);
    hide Fits;
    TailFits(m, v, i, |m[i]| + maximum + 2, n);
  }

  lemma ScopeLiterals()
    ensures forall i | 0 <= i < |SCOPE_MEMBERS| :: Printable(SCOPE_MEMBERS[i])
    ensures |SCOPE_MEMBERS[0]| == 10 && |SCOPE_MEMBERS[1]| == 10 && |SCOPE_MEMBERS[2]| == 13 && |SCOPE_MEMBERS[3]| == 17
    ensures |SCOPE_MEMBERS[4]| == 9 && |SCOPE_MEMBERS[5]| == 9 && |SCOPE_MEMBERS[6]| == 9
  {
  }

  lemma CursorLiterals()
    ensures forall i | 0 <= i < |CURSOR_MEMBERS| :: Printable(CURSOR_MEMBERS[i])
    ensures |CURSOR_MEMBERS[0]| == 9 && |CURSOR_MEMBERS[1]| == 14 && |CURSOR_MEMBERS[2]| == 13 && |CURSOR_MEMBERS[3]| == 6
    ensures |CURSOR_MEMBERS[4]| == 10
  {
  }

  const MAX_SCOPE := 424

  lemma ScopeObjectFits(m: seq<string>, v: seq<Option<string>>)
    requires |m| == |v| == 7 && forall i | 0 <= i < 7 :: Printable(m[i])
    requires |m[0]| == 10 && |m[1]| == 10 && |m[2]| == 13 && |m[3]| == 17 && |m[4]| == 9 && |m[5]| == 9 && |m[6]| == 9
    requires OptionalCode(v[0], 36) && OptionalCode(v[1], 8) && OptionalCode(v[2], 100) && OptionalCode(v[3], 128)
    requires OptionalCode(v[4], 27) && OptionalCode(v[5], 27) && OptionalCode(v[6], 6)
    ensures Fits(Object(m, v), MAX_SCOPE)
  {
    assert Fits(Object(m[7..], v[7..]), 1);
    hide Fits, Object, Code, Printable;
    CodesFit(m, v, 6, 6, 1);
    CodesFit(m, v, 5, 27, 18);
    CodesFit(m, v, 4, 27, 56);
    CodesFit(m, v, 3, 128, 94);
    CodesFit(m, v, 2, 100, 241);
    CodesFit(m, v, 1, 8, 356);
    CodesFit(m, v, 0, 36, 376);
    assert m[0..] == m && v[0..] == v;
  }

  lemma ScopeFieldsAreCodes(s: Scope)
    requires ScopeOk(s)
    ensures OptionalCode(Some(s.userId), 36) && OptionalCode(s.source, 8) && OptionalCode(s.eventType, 100)
    ensures OptionalCode(s.correlationId, 128) && OptionalCode(s.since, 27) && OptionalCode(s.until, 27) && OptionalCode(Some(s.order), 6)
  {
    UuidIsCode(s.userId);
    if s.source.Some? { SourceIsCode(s.source.value); }
    if s.since.Some? { StampIsCode(s.since.value); }
    if s.until.Some? { StampIsCode(s.until.value); }
    assert Code("newest", 6) && Code("oldest", 6);
  }

  /** The scope text of any accepted request is short and printable. */
  lemma ScopeFits(s: Scope)
    requires ScopeOk(s)
    ensures Fits(ScopeText(s), MAX_SCOPE)
  {
    ScopeFieldsAreCodes(s);
    ScopeLiterals();
    hide Fits, Object, OptionalCode, Printable, ScopeOk;
    ScopeObjectFits(SCOPE_MEMBERS, [Some(s.userId), s.source, s.eventType, s.correlationId, s.since, s.until, Some(s.order)]);
  }

  lemma CursorObjectFits(m: seq<string>, v: seq<Option<string>>)
    requires |m| == |v| == 5 && forall i | 0 <= i < 5 :: Printable(m[i])
    requires |m[0]| == 9 && |m[1]| == 14 && |m[2]| == 13 && |m[3]| == 6 && |m[4]| == 10
    requires v[0].Some? && Fits(v[0].value, MAX_SCOPE)
    requires OptionalCode(v[1], 27) && OptionalCode(v[2], 27) && OptionalCode(v[3], 36) && OptionalCode(v[4], 8)
    ensures Fits(Object(m, v), 1009)
  {
    assert Fits(Object(m[5..], v[5..]), 1);
    AnyMember(m[0], v[0].value, MAX_SCOPE);
    hide Fits, Object, Code, Printable;
    CodesFit(m, v, 4, 8, 1);
    CodesFit(m, v, 3, 36, 21);
    CodesFit(m, v, 2, 27, 65);
    CodesFit(m, v, 1, 27, 107);
    TailFits(m, v, 0, 859, 150);
    assert m[0..] == m && v[0..] == v;
  }

  /** Every issued cursor stays below the transport's limit. */
  lemma CursorFits(c: Cursor, s: Scope)
    requires CursorOk(c) && ScopeOk(s) && c.scope == ScopeText(s)
    ensures Printable(CursorText(c)) && 0 < |CursorText(c)| <= 1536
  {
    ScopeFits(s);
    StampIsCode(c.snapshotAt);
    StampIsCode(c.createdAt);
    UuidIsCode(c.id);
    SourceIsCode(c.source);
    CursorLiterals();
    ReadCursorText(c);
    hide Uuid, Stamp, Code, KnownSource, ScopeText, Printable, Object;
    CursorObjectFits(CURSOR_MEMBERS, [Some(c.scope), Some(c.snapshotAt), Some(c.createdAt), Some(c.id), Some(c.source)]);
    assert |CursorText(c)| > 0 by { if |CursorText(c)| == 0 { NothingReadsAsNothing(); } }
  }

  lemma NothingReadsAsNothing()
    ensures ReadCursor("").None?
  {
    assert |CURSOR_MEMBERS[0]| > 0;
  }

  lemma TextOfBytes(t: string)
    requires Printable(t)
    ensures ToText(ToBytes(t)) == t
  {
  }

  lemma ReadCursorText(c: Cursor)
    ensures ReadCursor(CursorText(c)) == Some(c)
  {
    ReadObjectOf(CURSOR_MEMBERS, [Some(c.scope), Some(c.snapshotAt), Some(c.createdAt), Some(c.id), Some(c.source)]);
  }

  /** Every cursor the handler issues for an accepted request is honoured when it comes back with the
      same request: it passes the length, alphabet, decoding and field checks unchanged. */
  lemma IssuedCursorAccepted(c: Cursor, s: Scope)
    requires CursorOk(c) && ScopeOk(s) && c.scope == ScopeText(s)
    ensures Printable(CursorText(c)) && Accept(Issue(c), ScopeText(s)) == Some(c)
  {
    CursorFits(c, s);
    hide ScopeText, CursorText, Encode, Decode, ReadCursor, Uuid, Stamp;
    var b := ToBytes(CursorText(c));
    EncodedLength(b);
    EncodeIsUrlSafe(b);
    DecodeEncode(b);
    TextOfBytes(CursorText(c));
    ReadCursorText(c);
  }

  /** Presented with any other user, filter or order it is refused. */
  lemma ForeignCursorRefused(c: Cursor, s: Scope, other: Scope)
    requires CursorOk(c) && ScopeOk(s) && c.scope == ScopeText(s) && other != s
    ensures Printable(CursorText(c)) && Accept(Issue(c), ScopeText(other)) == None
  {
    CursorFits(c, s);
    if ScopeText(other) == ScopeText(s) { ScopeTextInjective(other, s); }
    hide ScopeText, CursorText, Encode, Decode, ReadCursor, Uuid, Stamp;
    var b := ToBytes(CursorText(c));
    DecodeEncode(b);
    TextOfBytes(CursorText(c));
    ReadCursorText(c);
  }

  /** A presented text is honoured exactly when it fits the transport and decodes to the five fields of a
      cursor for this very scope, with a well-formed identifier, source and times. */
  lemma AcceptExactly(text: string, scope: string, c: Cursor)
    ensures Accept(text, scope) == Some(c) <==>
              && 0 < |text| <= 2048 && (forall x | x in text :: UrlSafe(x)) && Decode(text).Some?
              && ReadObject(ToText(Decode(text).value), CURSOR_MEMBERS) == Some([Some(c.scope), Some(c.snapshotAt), Some(c.createdAt), Some(c.id), Some(c.source)])
              && c.scope == scope && Uuid(c.id) && c.source in {"account", "activity", "audit"} && Stamp(c.snapshotAt) && Stamp(c.createdAt)
  {
    hide Decode, ReadObject, ToText, Uuid, Stamp, UrlSafe;
    var b := Decode(text);
    if b.Some? { ReadExactly(ToText(b.value), c); }
    hide ReadCursor;
  }

  lemma ReadExactly(t: string, c: Cursor)
    ensures ReadCursor(t) == Some(c) <==>
              ReadObject(t, CURSOR_MEMBERS) == Some([Some(c.scope), Some(c.snapshotAt), Some(c.createdAt), Some(c.id), Some(c.source)])
  {
    hide ReadObject;
    var v := ReadObject(t, CURSOR_MEMBERS);
    if v.Some? && |v.value| == 5 { assert v.value == [v.value[0], v.value[1], v.value[2], v.value[3], v.value[4]]; }
  }
}
